/** Commands of a member: joining, leaving, subscribing, spawning, moving and changing space keep
    the session graph consistent. */
module MemberInvariants {
  import opened Model
  import opened Sequences
  import opened Queue
  import opened Spatial
  import opened Cache
  import opened RateLimit
  import opened SessionGraph
  import opened Cascade
  import opened Removing
  import opened Commands
  import opened CommandInvariants

  // ------------------------------------------------------------------ join

  ghost predicate CanJoin(g: Graph, config: CoreConfig, c: nat, sk: SessionKey, now: nat) {
    && c in g.connections && sk in g.sessions && sk !in g.connections[c].memberships
    && (sk in Pruned(g.connections[c], now) || |Pruned(g.connections[c], now)| < config.maxMemberships)
  }

  ghost function WithMember(s: Session, c: nat): Session { s.(members := s.members + {c}) }

  lemma WithMemberOk(s: Session, config: CoreConfig, c: nat)
    requires SessionOk(s, config)
    ensures SessionOk(WithMember(s, c), config)
  {
    SameStructure(s, WithMember(s, c));
  }

  lemma JoinMembers(g: Graph, c: nat, sk: SessionKey, now: nat)
    requires c in g.connections && sk in g.sessions && MembersKnown(g) && MembershipsKnown(g)
    ensures MembersKnown(Join(g, c, sk, now)) && MembershipsKnown(Join(g, c, sk, now))
  {
  }

  lemma JoinSubscriptions(g: Graph, c: nat, sk: SessionKey, now: nat)
    requires c in g.connections && sk in g.sessions && SubscriptionsKnown(g) && SubscribersKnown(g)
    ensures SubscriptionsKnown(Join(g, c, sk, now)) && SubscribersKnown(Join(g, c, sk, now))
  {
  }

  lemma JoinOwners(g: Graph, c: nat, sk: SessionKey, now: nat)
    requires c in g.connections && sk in g.sessions && OwnersOk(g)
    ensures OwnersOk(Join(g, c, sk, now))
  {
  }

  lemma JoinQueues(g: Graph, config: CoreConfig, c: nat, sk: SessionKey, now: nat)
    requires c in g.connections && sk in g.sessions && QueuesOk(g, config)
    ensures QueuesOk(Join(g, c, sk, now), config)
  {
    var g' := Join(g, c, sk, now);
    forall i, m | i in g'.connections && g'.connections[i].outbound.Holds(m) ensures Deliverable(g', i, m) {
      assert Deliverable(g, i, m);
    }
  }

  lemma JoinBudget(g: Graph, config: CoreConfig, c: nat, sk: SessionKey, now: nat)
    requires CanJoin(g, config, c, sk, now) && BudgetOk(g.connections[c], config)
    ensures BudgetOk(Join(g, c, sk, now).connections[c], config)
  {
    var conn := g.connections[c];
    var pruned := Pruned(conn, now);
    SubsetSize(pruned.Keys, conn.sessionLimiters.Keys);
    if sk !in pruned {
      assert pruned[sk := NewSessionLimiter(g.sessions[sk].rateLimit)].Keys == pruned.Keys + {sk};
    }
  }

  lemma JoinSessions(g: Graph, config: CoreConfig, c: nat, sk: SessionKey, now: nat)
    requires SessionsOk(g, config) && CanJoin(g, config, c, sk, now)
    ensures SessionsOk(Join(g, c, sk, now), config)
  {
    WithMemberOk(g.sessions[sk], config, c);
    SessionsReplaced(g, Join(g, c, sk, now), config, sk, WithMember(g.sessions[sk], c));
  }

  lemma JoinCounts(g: Graph, config: CoreConfig, c: nat, sk: SessionKey, now: nat)
    requires CountsOk(g) && CanJoin(g, config, c, sk, now)
    ensures CountsOk(Join(g, c, sk, now))
  {
    var g' := Join(g, c, sk, now);
    CountsWith(g, g', c, g'.connections[c], sk, g'.sessions[sk]);
  }

  lemma JoinBudgets(g: Graph, config: CoreConfig, c: nat, sk: SessionKey, now: nat)
    requires BudgetsOk(g, config) && CanJoin(g, config, c, sk, now)
    ensures BudgetsOk(Join(g, c, sk, now), config)
  {
    JoinBudget(g, config, c, sk, now);
    BudgetsReplaced(g, Join(g, c, sk, now), config, c, Join(g, c, sk, now).connections[c]);
  }

  lemma JoinKeepsInv(g: Graph, config: CoreConfig, c: nat, sk: SessionKey, now: nat)
    requires Inv(g, config) && CanJoin(g, config, c, sk, now)
    ensures Inv(Join(g, c, sk, now), config)
  {
    JoinSessions(g, config, c, sk, now);
    JoinMembers(g, c, sk, now);
    JoinSubscriptions(g, c, sk, now);
    JoinOwners(g, c, sk, now);
    JoinCounts(g, config, c, sk, now);
    JoinQueues(g, config, c, sk, now);
    JoinBudgets(g, config, c, sk, now);
  }

  // ------------------------------------------------------------------ leave

  ghost function WithoutMember(s: Session, c: nat): Session {
    s.(members := s.members - {c},
       subscribers := (map sp | sp in s.subscribers :: s.subscribers[sp] - {c}),
       sequences := (map k | k in s.sequences && k.connection != c :: s.sequences[k]))
  }

  lemma WithoutMemberOk(s: Session, config: CoreConfig, c: nat)
    requires SessionOk(s, config)
    ensures SessionOk(WithoutMember(s, c), config)
  {
    SameStructure(s, WithoutMember(s, c));
    WithoutMemberKeys(s, c);
    WithoutMemberTables(s, config, c);
    SubsetSize(WithoutMember(s, c).sequences.Keys, s.sequences.Keys);
  }

  lemma WithoutMemberKeys(s: Session, c: nat)
    requires KeysOk(s)
    ensures KeysOk(WithoutMember(s, c))
  {
  }

  lemma WithoutMemberTables(s: Session, config: CoreConfig, c: nat)
    requires SpaceTablesOk(s, config)
    ensures SpaceTablesOk(WithoutMember(s, c), config)
  {
    assert WithoutMember(s, c).subscribers.Keys == s.subscribers.Keys;
  }

  lemma UnlinkMembers(g: Graph, c: nat, sk: SessionKey)
    requires c in g.connections && sk in g.sessions && MembersKnown(g) && MembershipsKnown(g)
    ensures MembersKnown(Unlink(g, c, sk)) && MembershipsKnown(Unlink(g, c, sk))
  {
  }

  lemma UnlinkSubscriptions(g: Graph, c: nat, sk: SessionKey)
    requires c in g.connections && sk in g.sessions && SubscriptionsKnown(g)
    ensures SubscriptionsKnown(Unlink(g, c, sk))
  {
  }

  lemma UnlinkSubscribers(g: Graph, c: nat, sk: SessionKey)
    requires c in g.connections && sk in g.sessions && SubscribersKnown(g)
    ensures SubscribersKnown(Unlink(g, c, sk))
  {
  }

  lemma UnlinkOwners(g: Graph, c: nat, sk: SessionKey)
    requires c in g.connections && sk in g.sessions && OwnersOk(g) && OwnedIn(g.sessions[sk], c) == {}
    ensures OwnersOk(Unlink(g, c, sk))
  {
    forall e | e in g.sessions[sk].entities ensures g.sessions[sk].entities[e].owner != c {
      assert e !in OwnedIn(g.sessions[sk], c);
    }
  }

  lemma UnlinkQueues(g: Graph, config: CoreConfig, c: nat, sk: SessionKey)
    requires c in g.connections && sk in g.sessions && QueuesOk(g, config)
    ensures QueuesOk(Unlink(g, c, sk), config)
  {
    var g' := Unlink(g, c, sk);
    KeepBounded(g.connections[c].outbound, config.queue, Not(OfSession(sk)));
    forall i, m | i in g'.connections && g'.connections[i].outbound.Holds(m) ensures Deliverable(g', i, m) {
      assert g.connections[i].outbound.Holds(m) && (i == c ==> Not(OfSession(sk))(m));
      assert Deliverable(g, i, m);
    }
  }

  lemma UnlinkBudget(g: Graph, config: CoreConfig, c: nat, sk: SessionKey)
    requires c in g.connections && sk in g.sessions && BudgetOk(g.connections[c], config)
    ensures BudgetOk(Unlink(g, c, sk).connections[c], config)
  {
    var conn := g.connections[c];
    SubsetSize((conn.sessionLimiters - {sk}).Keys, conn.sessionLimiters.Keys);
    SubsetSize(Unlink(g, c, sk).connections[c].subscriptions, conn.subscriptions);
  }

  lemma UnlinkSessions(g: Graph, config: CoreConfig, c: nat, sk: SessionKey)
    requires SessionsOk(g, config) && c in g.connections && sk in g.sessions
    ensures SessionsOk(Unlink(g, c, sk), config)
  {
    WithoutMemberOk(g.sessions[sk], config, c);
    SessionsReplaced(g, Unlink(g, c, sk), config, sk, WithoutMember(g.sessions[sk], c));
  }

  lemma UnlinkCounts(g: Graph, config: CoreConfig, c: nat, sk: SessionKey)
    requires CountsOk(g) && c in g.connections && sk in g.sessions
    ensures CountsOk(Unlink(g, c, sk))
  {
    var g' := Unlink(g, c, sk);
    CountsWith(g, g', c, g'.connections[c], sk, g'.sessions[sk]);
  }

  lemma UnlinkBudgets(g: Graph, config: CoreConfig, c: nat, sk: SessionKey)
    requires BudgetsOk(g, config) && c in g.connections && sk in g.sessions
    ensures BudgetsOk(Unlink(g, c, sk), config)
  {
    UnlinkBudget(g, config, c, sk);
    BudgetsReplaced(g, Unlink(g, c, sk), config, c, Unlink(g, c, sk).connections[c]);
  }

  lemma UnlinkKeepsInv(g: Graph, config: CoreConfig, c: nat, sk: SessionKey)
    requires Inv(g, config) && c in g.connections && sk in g.sessions && OwnedIn(g.sessions[sk], c) == {}
    ensures Inv(Unlink(g, c, sk), config)
  {
    UnlinkSessions(g, config, c, sk);
    UnlinkMembers(g, c, sk);
    UnlinkSubscriptions(g, c, sk);
    UnlinkSubscribers(g, c, sk);
    UnlinkOwners(g, c, sk);
    UnlinkCounts(g, config, c, sk);
    UnlinkQueues(g, config, c, sk);
    UnlinkBudgets(g, config, c, sk);
  }

  lemma CascadeDisowns(g: Graph, c: nat, sk: SessionKey)
    requires sk in g.sessions
    ensures OwnedIn(RemoveCascade(g, sk, OwnedIn(g.sessions[sk], c)).sessions[sk], c) == {}
  {
    var s := g.sessions[sk];
    var r := Closure(s, Removal(OwnedIn(s, c), {}));
    assert OwnedIn(s, c) <= r.entities;
  }

  lemma DetachKeepsInv(g: Graph, config: CoreConfig, c: nat, sk: SessionKey)
    requires Inv(g, config) && c in g.connections && sk in g.sessions
    ensures Inv(Detach(g, c, sk), config)
  {
    CascadeKeepsInv(g, config, sk, OwnedIn(g.sessions[sk], c));
    CascadeDisowns(g, c, sk);
    UnlinkKeepsInv(RemoveCascade(g, sk, OwnedIn(g.sessions[sk], c)), config, c, sk);
  }

  // ------------------------------------------------------------------ subscribe and unsubscribe

  ghost predicate CanSubscribe(g: Graph, config: CoreConfig, c: nat, k: SpaceKey) {
    && c in g.connections && k.session in g.connections[c].memberships
    && k.session in g.sessions && k.space in g.sessions[k.session].subscribers
    && k !in g.connections[c].subscriptions && |g.connections[c].subscriptions| < config.maxSubscriptions
  }

  lemma SubscribersReplaced(s: Session, config: CoreConfig, space: nat, subs: set<nat>)
    requires SessionOk(s, config) && space in s.subscribers
    ensures SessionOk(s.(subscribers := s.subscribers[space := subs]), config)
  {
    SameStructure(s, s.(subscribers := s.subscribers[space := subs]));
    SubscribersKeys(s, s.subscribers[space := subs]);
    SubscribersTables(s, config, space, subs);
  }

  lemma SubscribersTables(s: Session, config: CoreConfig, space: nat, subs: set<nat>)
    requires SpaceTablesOk(s, config) && space in s.subscribers
    ensures SpaceTablesOk(s.(subscribers := s.subscribers[space := subs]), config)
  {
    assert s.subscribers[space := subs].Keys == s.subscribers.Keys;
  }

  lemma SubscribersKeys(s: Session, subs: map<nat, set<nat>>)
    requires KeysOk(s)
    ensures KeysOk(s.(subscribers := subs))
  {
  }

  lemma SubscribeMembers(g: Graph, config: CoreConfig, c: nat, k: SpaceKey)
    requires MembersKnown(g) && MembershipsKnown(g) && OwnersOk(g) && CanSubscribe(g, config, c, k)
    ensures MembersKnown(Subscribe(g, c, k)) && MembershipsKnown(Subscribe(g, c, k)) && OwnersOk(Subscribe(g, c, k))
  {
  }

  lemma SubscribeTables(g: Graph, config: CoreConfig, c: nat, k: SpaceKey)
    requires SubscriptionsKnown(g) && SubscribersKnown(g) && CanSubscribe(g, config, c, k)
    ensures SubscriptionsKnown(Subscribe(g, c, k)) && SubscribersKnown(Subscribe(g, c, k))
  {
  }

  lemma SubscribeQueues(g: Graph, config: CoreConfig, c: nat, k: SpaceKey)
    requires QueuesOk(g, config) && CanSubscribe(g, config, c, k)
    ensures QueuesOk(Subscribe(g, c, k), config)
  {
    var g' := Subscribe(g, c, k);
    forall i, m | i in g'.connections && g'.connections[i].outbound.Holds(m) ensures Deliverable(g', i, m) {
      assert Deliverable(g, i, m);
    }
  }

  lemma SubscribeSessions(g: Graph, config: CoreConfig, c: nat, k: SpaceKey)
    requires SessionsOk(g, config) && CanSubscribe(g, config, c, k)
    ensures SessionsOk(Subscribe(g, c, k), config)
  {
    var s := g.sessions[k.session];
    SubscribersReplaced(s, config, k.space, s.subscribers[k.space] + {c});
    SessionsReplaced(g, Subscribe(g, c, k), config, k.session, Subscribe(g, c, k).sessions[k.session]);
  }

  lemma SubscribeCounts(g: Graph, config: CoreConfig, c: nat, k: SpaceKey)
    requires CountsOk(g) && CanSubscribe(g, config, c, k)
    ensures CountsOk(Subscribe(g, c, k))
  {
    var g' := Subscribe(g, c, k);
    CountsWith(g, g', c, g'.connections[c], k.session, g'.sessions[k.session]);
  }

  lemma SubscribeBudgets(g: Graph, config: CoreConfig, c: nat, k: SpaceKey)
    requires BudgetsOk(g, config) && CanSubscribe(g, config, c, k)
    ensures BudgetsOk(Subscribe(g, c, k), config)
  {
    BudgetsReplaced(g, Subscribe(g, c, k), config, c, Subscribe(g, c, k).connections[c]);
  }

  lemma SubscribeKeepsInv(g: Graph, config: CoreConfig, c: nat, k: SpaceKey)
    requires Inv(g, config) && CanSubscribe(g, config, c, k)
    ensures Inv(Subscribe(g, c, k), config)
  {
    SubscribeSessions(g, config, c, k);
    SubscribeMembers(g, config, c, k);
    SubscribeTables(g, config, c, k);
    SubscribeCounts(g, config, c, k);
    SubscribeQueues(g, config, c, k);
    SubscribeBudgets(g, config, c, k);
  }

  ghost predicate CanUnsubscribe(g: Graph, c: nat, k: SpaceKey) {
    c in g.connections && k.session in g.sessions && k.space in g.sessions[k.session].subscribers
  }

  lemma UnsubscribeTables(g: Graph, c: nat, k: SpaceKey)
    requires SubscriptionsKnown(g) && SubscribersKnown(g) && CanUnsubscribe(g, c, k)
    ensures SubscriptionsKnown(Unsubscribe(g, c, k)) && SubscribersKnown(Unsubscribe(g, c, k))
  {
  }

  lemma UnsubscribeMembers(g: Graph, c: nat, k: SpaceKey)
    requires MembersKnown(g) && MembershipsKnown(g) && OwnersOk(g) && CanUnsubscribe(g, c, k)
    ensures MembersKnown(Unsubscribe(g, c, k)) && MembershipsKnown(Unsubscribe(g, c, k))
            && OwnersOk(Unsubscribe(g, c, k))
  {
  }

  lemma UnsubscribeQueues(g: Graph, config: CoreConfig, c: nat, k: SpaceKey)
    requires QueuesOk(g, config) && CanUnsubscribe(g, c, k)
    ensures QueuesOk(Unsubscribe(g, c, k), config)
  {
    var g' := Unsubscribe(g, c, k);
    var drop := InSpace(k.session, k.space);
    KeepBounded(g.connections[c].outbound, config.queue, Not(drop));
    forall i, m | i in g'.connections && g'.connections[i].outbound.Holds(m) ensures Deliverable(g', i, m) {
      assert g.connections[i].outbound.Holds(m) && (i == c ==> Not(drop)(m));
      assert Deliverable(g, i, m);
    }
  }

  lemma UnsubscribeSessions(g: Graph, config: CoreConfig, c: nat, k: SpaceKey)
    requires SessionsOk(g, config) && CanUnsubscribe(g, c, k)
    ensures SessionsOk(Unsubscribe(g, c, k), config)
  {
    var s := g.sessions[k.session];
    SubscribersReplaced(s, config, k.space, s.subscribers[k.space] - {c});
    SessionsReplaced(g, Unsubscribe(g, c, k), config, k.session, Unsubscribe(g, c, k).sessions[k.session]);
  }

  lemma UnsubscribeCounts(g: Graph, config: CoreConfig, c: nat, k: SpaceKey)
    requires CountsOk(g) && CanUnsubscribe(g, c, k)
    ensures CountsOk(Unsubscribe(g, c, k))
  {
    var g' := Unsubscribe(g, c, k);
    CountsWith(g, g', c, g'.connections[c], k.session, g'.sessions[k.session]);
  }

  lemma UnsubscribeBudgets(g: Graph, config: CoreConfig, c: nat, k: SpaceKey)
    requires BudgetsOk(g, config) && CanUnsubscribe(g, c, k)
    ensures BudgetsOk(Unsubscribe(g, c, k), config)
  {
    SubsetSize(g.connections[c].subscriptions - {k}, g.connections[c].subscriptions);
    BudgetsReplaced(g, Unsubscribe(g, c, k), config, c, Unsubscribe(g, c, k).connections[c]);
  }

  lemma UnsubscribeKeepsInv(g: Graph, config: CoreConfig, c: nat, k: SpaceKey)
    requires Inv(g, config) && CanUnsubscribe(g, c, k)
    ensures Inv(Unsubscribe(g, c, k), config)
  {
    UnsubscribeSessions(g, config, c, k);
    UnsubscribeMembers(g, c, k);
    UnsubscribeTables(g, c, k);
    UnsubscribeCounts(g, config, c, k);
    UnsubscribeQueues(g, config, c, k);
    UnsubscribeBudgets(g, config, c, k);
  }

  // ------------------------------------------------------------------ spawn

  ghost predicate CanSpawn(g: Graph, config: CoreConfig, c: nat, k: SpaceKey) {
    && c in g.connections && k.session in g.connections[c].memberships
    && k.session in g.sessions && k.space in g.sessions[k.session].spaces
    && g.connections[c].ownedEntities < config.maxOwnedEntities
    && |g.sessions[k.session].entities| < config.maxEntities
    && g.nextEntity > 0
  }

  ghost function WithEntity(s: Session, r: EntityRecord): Session { s.(entities := s.entities[r.id := r]) }

  lemma WithEntityStructure(s: Session, r: EntityRecord)
    requires SpacesOk(s) && EntitiesOk(s) && PositionsOk(s)
    requires r.id !in s.entities && r.space in s.spaces && r.epoch == s.spaces[r.space].epoch && r.position.None?
    ensures var s' := WithEntity(s, r); SpacesOk(s') && EntitiesOk(s') && PositionsOk(s')
  {
  }

  lemma WithEntityCells(s: Session, r: EntityRecord)
    requires CellsOk(s) && r.id !in s.entities && r.position.None?
    ensures CellsOk(WithEntity(s, r))
  {
    var s' := WithEntity(s, r);
    forall e ensures ExpectedCell(s', e) == ExpectedCell(s, e) {}
  }

  lemma WithEntitySize(s: Session, r: EntityRecord)
    requires r.id !in s.entities
    ensures |WithEntity(s, r).entities| == |s.entities| + 1
  {
    assert WithEntity(s, r).entities.Keys == s.entities.Keys + {r.id};
  }

  lemma WithEntityOk(s: Session, config: CoreConfig, r: EntityRecord)
    requires SessionOk(s, config) && |s.entities| < config.maxEntities
    requires r.id !in s.entities && r.space in s.spaces && r.epoch == s.spaces[r.space].epoch && r.position.None?
    ensures SessionOk(WithEntity(s, r), config)
  {
    WithEntityStructure(s, r);
    WithEntityCells(s, r);
    WithEntityKeys(s, r);
    WithEntitySize(s, r);
  }

  lemma WithEntityKeys(s: Session, r: EntityRecord)
    requires KeysOk(s) && r.id !in s.entities
    ensures KeysOk(WithEntity(s, r))
  {
  }

  lemma SpawnOwners(g: Graph, config: CoreConfig, c: nat, k: SpaceKey, principal: nat)
    requires OwnersOk(g) && MembershipsKnown(g) && CanSpawn(g, config, c, k)
    ensures OwnersOk(Spawn(g, c, k, principal))
  {
  }

  lemma SpawnOwned(g: Graph, c: nat, k: SpaceKey, principal: nat)
    requires c in g.connections && k.session in g.sessions && k.space in g.sessions[k.session].spaces
    requires g.nextEntity !in g.sessions[k.session].entities
    ensures Owned(Spawn(g, c, k, principal), c) == Owned(g, c) + {(k.session, g.nextEntity)}
    ensures (k.session, g.nextEntity) !in Owned(g, c)
  {
  }

  lemma SpawnNotOwned(g: Graph, c: nat, k: SpaceKey, principal: nat, i: nat)
    requires c in g.connections && k.session in g.sessions && k.space in g.sessions[k.session].spaces
    requires g.nextEntity !in g.sessions[k.session].entities && i != c
    ensures Owned(Spawn(g, c, k, principal), i) == Owned(g, i)
  {
  }

  lemma SpawnCounts(g: Graph, config: CoreConfig, c: nat, k: SpaceKey, principal: nat)
    requires CountsOk(g) && CanSpawn(g, config, c, k) && g.nextEntity !in g.sessions[k.session].entities
    ensures CountsOk(Spawn(g, c, k, principal))
  {
    var g' := Spawn(g, c, k, principal);
    forall i | i in g'.connections ensures g'.connections[i].ownedEntities == |Owned(g', i)| {
      if i == c { SpawnOwned(g, c, k, principal); } else { SpawnNotOwned(g, c, k, principal, i); }
    }
  }

  lemma SpawnTables(g: Graph, config: CoreConfig, c: nat, k: SpaceKey, principal: nat)
    requires MembersKnown(g) && MembershipsKnown(g) && SubscriptionsKnown(g) && SubscribersKnown(g)
             && CanSpawn(g, config, c, k)
    ensures var g' := Spawn(g, c, k, principal);
            MembersKnown(g') && MembershipsKnown(g') && SubscriptionsKnown(g') && SubscribersKnown(g')
  {
    SpawnMembers(g, config, c, k, principal);
    SpawnSubscribers(g, config, c, k, principal);
  }

  lemma SpawnMembers(g: Graph, config: CoreConfig, c: nat, k: SpaceKey, principal: nat)
    requires MembersKnown(g) && MembershipsKnown(g) && CanSpawn(g, config, c, k)
    ensures MembersKnown(Spawn(g, c, k, principal)) && MembershipsKnown(Spawn(g, c, k, principal))
  {
  }

  lemma SpawnSubscribers(g: Graph, config: CoreConfig, c: nat, k: SpaceKey, principal: nat)
    requires SubscriptionsKnown(g) && SubscribersKnown(g) && CanSpawn(g, config, c, k)
    ensures SubscriptionsKnown(Spawn(g, c, k, principal)) && SubscribersKnown(Spawn(g, c, k, principal))
  {
  }

  lemma SpawnQueues(g: Graph, config: CoreConfig, c: nat, k: SpaceKey, principal: nat)
    requires QueuesOk(g, config) && CanSpawn(g, config, c, k) && g.nextEntity !in g.sessions[k.session].entities
    ensures QueuesOk(Spawn(g, c, k, principal), config)
  {
    var g' := Spawn(g, c, k, principal);
    forall i, m | i in g'.connections && g'.connections[i].outbound.Holds(m) ensures Deliverable(g', i, m) {
      assert Deliverable(g, i, m);
    }
  }

  lemma FreshEntity(g: Graph, sk: SessionKey)
    requires OwnersOk(g) && sk in g.sessions
    ensures g.nextEntity !in g.sessions[sk].entities
  {
  }

  lemma SpawnSessions(g: Graph, config: CoreConfig, c: nat, k: SpaceKey, principal: nat)
    requires SessionsOk(g, config) && CanSpawn(g, config, c, k) && g.nextEntity !in g.sessions[k.session].entities
    ensures SessionsOk(Spawn(g, c, k, principal), config)
  {
    var s := g.sessions[k.session];
    WithEntityOk(s, config, EntityRecord(g.nextEntity, c, principal, k.space, s.spaces[k.space].epoch, None));
    SessionsReplaced(g, Spawn(g, c, k, principal), config, k.session, Spawn(g, c, k, principal).sessions[k.session]);
  }

  lemma SpawnBudgets(g: Graph, config: CoreConfig, c: nat, k: SpaceKey, principal: nat)
    requires BudgetsOk(g, config) && CanSpawn(g, config, c, k)
    ensures BudgetsOk(Spawn(g, c, k, principal), config)
  {
    BudgetsReplaced(g, Spawn(g, c, k, principal), config, c, Spawn(g, c, k, principal).connections[c]);
  }

  lemma SpawnKeepsInv(g: Graph, config: CoreConfig, c: nat, k: SpaceKey, principal: nat)
    requires Inv(g, config) && CanSpawn(g, config, c, k)
    ensures Inv(Spawn(g, c, k, principal), config)
  {
    FreshEntity(g, k.session);
    SpawnSessions(g, config, c, k, principal);
    SpawnTables(g, config, c, k, principal);
    SpawnOwners(g, config, c, k, principal);
    SpawnCounts(g, config, c, k, principal);
    SpawnQueues(g, config, c, k, principal);
    SpawnBudgets(g, config, c, k, principal);
  }

  // ------------------------------------------------------------------ move

  ghost predicate CanMove(s: Session, e: nat, position: Position, cell: Option<CellKey>) {
    && e in s.entities && s.entities[e].space in s.spaces && s.spaces[s.entities[e].space].Validate().None?
    && CellFor(position, s.spaces[s.entities[e].space], s.entities[e].epoch) == Ok(cell)
  }

  lemma MoveCells(s: Session, e: nat, position: Position, cell: Option<CellKey>)
    requires CellsOk(s) && CanMove(s, e, position, cell)
    ensures CellsOk(Move(s, e, position, cell))
  {
    var s' := Move(s, e, position, cell);
    forall i ensures ExpectedCell(s', i) == if i == e then cell else ExpectedCell(s, i) {}
  }

  lemma MoveStructure(s: Session, e: nat, position: Position, cell: Option<CellKey>)
    requires SpacesOk(s) && EntitiesOk(s) && PositionsOk(s) && CanMove(s, e, position, cell)
    ensures var s' := Move(s, e, position, cell); SpacesOk(s') && EntitiesOk(s') && PositionsOk(s')
  {
  }

  lemma MoveKeys(s: Session, e: nat, position: Position, cell: Option<CellKey>)
    requires KeysOk(s) && e in s.entities
    ensures KeysOk(Move(s, e, position, cell))
  {
  }

  lemma MoveOk(s: Session, config: CoreConfig, e: nat, position: Position, cell: Option<CellKey>)
    requires SessionOk(s, config) && CanMove(s, e, position, cell)
    ensures SessionOk(Move(s, e, position, cell), config)
  {
    MoveStructure(s, e, position, cell);
    MoveCells(s, e, position, cell);
    MoveKeys(s, e, position, cell);
    MoveExtends(s, e, position, cell);
  }

  lemma MoveExtends(s: Session, e: nat, position: Position, cell: Option<CellKey>)
    requires e in s.entities
    ensures Extends(s, Move(s, e, position, cell)) && |Move(s, e, position, cell).entities| == |s.entities|
  {
    assert Move(s, e, position, cell).entities.Keys == s.entities.Keys;
  }

  lemma MoveKeepsInv(g: Graph, config: CoreConfig, sk: SessionKey, e: nat, position: Position, cell: Option<CellKey>)
    requires Inv(g, config) && sk in g.sessions && CanMove(g.sessions[sk], e, position, cell)
    ensures Inv(WithSession(g, sk, Move(g.sessions[sk], e, position, cell)), config)
  {
    SessionOf(g, config, sk);
    MoveOk(g.sessions[sk], config, e, position, cell);
    MoveExtends(g.sessions[sk], e, position, cell);
    ExtendKeepsInv(g, config, sk, Move(g.sessions[sk], e, position, cell));
  }

  // ------------------------------------------------------------------ transition

  ghost predicate CanRelocate(s: Session, e: nat, space: nat, epoch: nat) {
    e in s.entities && space in s.spaces && s.spaces[space].epoch == epoch
  }

  lemma RelocateStructure(s: Session, e: nat, space: nat, epoch: nat)
    requires SpacesOk(s) && EntitiesOk(s) && PositionsOk(s) && CanRelocate(s, e, space, epoch)
    ensures var s' := Relocate(s, e, space, epoch); SpacesOk(s') && EntitiesOk(s') && PositionsOk(s')
  {
  }

  lemma RelocateCells(s: Session, e: nat, space: nat, epoch: nat)
    requires CellsOk(s) && e in s.entities
    ensures CellsOk(Relocate(s, e, space, epoch))
  {
    var s' := Relocate(s, e, space, epoch);
    forall i ensures ExpectedCell(s', i) == if i == e then None else ExpectedCell(s, i) {}
  }

  lemma RelocateKeys(s: Session, e: nat, space: nat, epoch: nat)
    requires KeysOk(s) && EntitiesOk(s) && e in s.entities
    ensures KeysOk(Relocate(s, e, space, epoch))
  {
  }

  lemma RelocateSizes(s: Session, e: nat, space: nat, epoch: nat)
    requires e in s.entities && s.stateBytes == ByteLen(s.state)
    ensures var s' := Relocate(s, e, space, epoch);
            && |s'.sequences| <= |s.sequences| && |s'.state| <= |s.state| && s'.stateBytes <= s.stateBytes
            && s'.entities.Keys == s.entities.Keys
  {
    var s' := Relocate(s, e, space, epoch);
    SubsetSize(s'.sequences.Keys, s.sequences.Keys);
    ByteLenSubset(s.state, s'.state);
  }

  lemma RelocateOk(s: Session, config: CoreConfig, e: nat, space: nat, epoch: nat)
    requires SessionOk(s, config) && CanRelocate(s, e, space, epoch)
    ensures SessionOk(Relocate(s, e, space, epoch), config)
  {
    RelocateStructure(s, e, space, epoch);
    RelocateCells(s, e, space, epoch);
    RelocateKeys(s, e, space, epoch);
    RelocateSizes(s, e, space, epoch);
  }

  lemma RelocateQueues(g: Graph, config: CoreConfig, sk: SessionKey, e: nat, space: nat, epoch: nat)
    requires QueuesOk(g, config) && sk in g.sessions && CanRelocate(g.sessions[sk], e, space, epoch)
             && EntitiesOk(g.sessions[sk])
    requires var rec := g.sessions[sk].entities[e];
             forall c, m | c in g.connections && g.connections[c].outbound.Holds(m) ::
               !OfEntity(sk, rec.space, rec.epoch, e)(m)
    ensures QueuesOk(WithSession(g, sk, Relocate(g.sessions[sk], e, space, epoch)), config)
  {
    var g' := WithSession(g, sk, Relocate(g.sessions[sk], e, space, epoch));
    forall i, m | i in g'.connections && g'.connections[i].outbound.Holds(m) ensures Deliverable(g', i, m) {
      assert Deliverable(g, i, m) && !OfEntity(sk, g.sessions[sk].entities[e].space,
                                               g.sessions[sk].entities[e].epoch, e)(m);
    }
  }

  lemma RelocateSessions(g: Graph, config: CoreConfig, sk: SessionKey, e: nat, space: nat, epoch: nat)
    requires SessionsOk(g, config) && BudgetsOk(g, config) && sk in g.sessions
             && CanRelocate(g.sessions[sk], e, space, epoch)
    ensures var g' := WithSession(g, sk, Relocate(g.sessions[sk], e, space, epoch));
            SessionsOk(g', config) && BudgetsOk(g', config)
    ensures EntitiesOk(g.sessions[sk])
  {
    RelocateOk(g.sessions[sk], config, e, space, epoch);
    SessionReplaced(g, config, sk, Relocate(g.sessions[sk], e, space, epoch));
  }

  lemma RelocateLinks(g: Graph, sk: SessionKey, e: nat, space: nat, epoch: nat)
    requires LinksOk(g) && sk in g.sessions && e in g.sessions[sk].entities
    ensures LinksOk(WithSession(g, sk, Relocate(g.sessions[sk], e, space, epoch)))
  {
    var s' := Relocate(g.sessions[sk], e, space, epoch);
    assert s'.entities.Keys == g.sessions[sk].entities.Keys;
    SameLinks(g, sk, s');
  }

  lemma TransitionKeepsInv(g: Graph, config: CoreConfig, sk: SessionKey, e: nat, space: nat, epoch: nat)
    requires Inv(g, config) && sk in g.sessions && CanRelocate(g.sessions[sk], e, space, epoch)
    ensures Inv(Transition(g, sk, e, space, epoch), config)
  {
    var rec := g.sessions[sk].entities[e];
    var drop := OfEntity(sk, rec.space, rec.epoch, e);
    PurgeAllKeepsInv(g, config, drop);
    var g1 := PurgeAll(g, drop);
    RelocateSessions(g1, config, sk, e, space, epoch);
    RelocateLinks(g1, sk, e, space, epoch);
    RelocateQueues(g1, config, sk, e, space, epoch);
  }

  // ------------------------------------------------------------------ sweep

  lemma SweepOk(s: Session, config: CoreConfig, now: nat)
    requires SessionOk(s, config)
    ensures SessionOk(SweepState(s, now), config) && Extends(s, SweepState(s, now))
  {
    SameStructure(s, SweepState(s, now));
    SweepKeys(s, now);
    ByteLenSubset(s.state, SweepState(s, now).state);
  }

  lemma SweepKeys(s: Session, now: nat)
    requires KeysOk(s)
    ensures KeysOk(SweepState(s, now))
  {
  }

  // ------------------------------------------------------------------ transport loss

  lemma DetachFrame(g: Graph, c: nat, sk: SessionKey)
    requires c in g.connections && sk in g.sessions
    ensures Detach(g, c, sk).connections.Keys == g.connections.Keys && Detach(g, c, sk).sessions.Keys == g.sessions.Keys
    ensures Detach(g, c, sk).connections[c].memberships == g.connections[c].memberships - {sk}
  {
    var g1 := RemoveCascade(g, sk, OwnedIn(g.sessions[sk], c));
    assert g1.connections.Keys == g.connections.Keys && g1.sessions.Keys == g.sessions.Keys;
    assert Unlink(g1, c, sk).sessions.Keys == g1.sessions.Keys
           && Unlink(g1, c, sk).connections.Keys == g1.connections.Keys;
  }

  /** Leaving every session of `order` in turn. */
  ghost function DetachAll(g: Graph, c: nat, order: seq<SessionKey>): (g': Graph)
    requires c in g.connections && forall i | 0 <= i < |order| :: order[i] in g.sessions
    ensures g'.connections.Keys == g.connections.Keys && g'.sessions.Keys == g.sessions.Keys
    ensures forall sk | sk in g'.connections[c].memberships :: sk in g.connections[c].memberships && sk !in order
  {
    if order == [] then g
    else
      assert order == order[..|order| - 1] + [order[|order| - 1]];
      var g1 := DetachAll(g, c, order[..|order| - 1]);
      DetachFrame(g1, c, order[|order| - 1]);
      Detach(g1, c, order[|order| - 1])
  }

  ghost function Forget(g: Graph, c: nat): Graph { g.(connections := g.connections - {c}) }

  ghost function Disconnect(g: Graph, c: nat, order: seq<SessionKey>): Graph
    requires c in g.connections && forall i | 0 <= i < |order| :: order[i] in g.sessions
  {
    Forget(DetachAll(g, c, order), c)
  }

  lemma {:induction false} DetachAllKeepsInv(g: Graph, config: CoreConfig, c: nat, order: seq<SessionKey>)
    requires Inv(g, config) && c in g.connections && forall i | 0 <= i < |order| :: order[i] in g.sessions
    ensures Inv(DetachAll(g, c, order), config)
  {
    if order != [] {
      DetachAllKeepsInv(g, config, c, order[..|order| - 1]);
      DetachKeepsInv(DetachAll(g, c, order[..|order| - 1]), config, c, order[|order| - 1]);
    }
  }

  lemma ForgetLinks(g: Graph, c: nat)
    requires LinksOk(g) && c in g.connections && g.connections[c].memberships == {}
    ensures LinksOk(Forget(g, c))
  {
    ForgetMembers(g, c);
    ForgetSubscribers(g, c);
    CountsSame(g, Forget(g, c));
  }

  lemma ForgetMembers(g: Graph, c: nat)
    requires MembersKnown(g) && MembershipsKnown(g) && OwnersOk(g) && c in g.connections
             && g.connections[c].memberships == {}
    ensures MembersKnown(Forget(g, c)) && MembershipsKnown(Forget(g, c)) && OwnersOk(Forget(g, c))
  {
  }

  lemma ForgetSubscribers(g: Graph, c: nat)
    requires SubscriptionsKnown(g) && SubscribersKnown(g) && c in g.connections && g.connections[c].memberships == {}
    ensures SubscriptionsKnown(Forget(g, c)) && SubscribersKnown(Forget(g, c))
  {
  }

  lemma ForgetRest(g: Graph, config: CoreConfig, c: nat)
    requires SessionsOk(g, config) && QueuesOk(g, config) && BudgetsOk(g, config)
    ensures SessionsOk(Forget(g, c), config) && QueuesOk(Forget(g, c), config) && BudgetsOk(Forget(g, c), config)
  {
    var g' := Forget(g, c);
    forall i, m | i in g'.connections && g'.connections[i].outbound.Holds(m) ensures Deliverable(g', i, m) {
      assert Deliverable(g, i, m);
    }
  }

  /** Losing a transport leaves a consistent graph without the connection. */
  lemma DisconnectKeepsInv(g: Graph, config: CoreConfig, c: nat, order: seq<SessionKey>)
    requires Inv(g, config) && c in g.connections && forall i | 0 <= i < |order| :: order[i] in g.sessions
    requires forall sk | sk in g.connections[c].memberships :: sk in order
    ensures Inv(Disconnect(g, c, order), config) && c !in Disconnect(g, c, order).connections
  {
    DetachAllKeepsInv(g, config, c, order);
    var g1 := DetachAll(g, c, order);
    assert g1.connections[c].memberships == {};
    ForgetLinks(g1, c);
    ForgetRest(g1, config, c);
  }
}
