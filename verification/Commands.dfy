/** The effect of each accepted command on the session graph, and that each keeps the invariant. */
module Commands {
  import opened Model
  import opened Sequences
  import opened Queue
  import opened Spatial
  import opened Cache
  import opened RateLimit
  import opened SessionGraph
  import opened Removing

  // ------------------------------------------------------------------ effects

  function Connect(g: Graph): Graph {
    g.(connections := g.connections[g.nextConnection := NEW_CONNECTION], nextConnection := g.nextConnection + 1)
  }

  function Provision(g: Graph, sk: SessionKey): Graph {
    g.(sessions := g.sessions[sk := NEW_SESSION])
  }

  function WithSession(g: Graph, sk: SessionKey, s: Session): Graph {
    g.(sessions := g.sessions[sk := s])
  }

  function WithConnection(g: Graph, c: nat, conn: Connection): Graph {
    g.(connections := g.connections[c := conn])
  }

  function InstallSpace(s: Session, d: SpaceDescriptor): Session {
    s.(tombstones := s.tombstones - {d.id}, subscribers := s.subscribers[d.id := {}], spaces := s.spaces[d.id := d])
  }

  /** Every queue loses the messages `drop` selects. */
  ghost function PurgeAll(g: Graph, drop: OutboundMessage -> bool): Graph {
    g.(connections := (map c | c in g.connections ::
                       g.connections[c].(outbound := g.connections[c].outbound.Purge(drop))))
  }

  function InSpace(sk: SessionKey, space: nat): OutboundMessage -> bool {
    (m: OutboundMessage) => m.Session() == sk && m.space == space
  }

  ghost function EntitiesIn(s: Session, space: nat): set<nat> {
    set e | e in s.entities && s.entities[e].space == space
  }

  ghost function SetEpoch(s: Session, space: nat, epoch: nat): Session
    requires space in s.spaces
  {
    var state := map k | k in s.state && k.space != space :: s.state[k];
    s.(spaces := s.spaces[space := s.spaces[space].(epoch := epoch)],
       state := state,
       stateBytes := ByteLen(state),
       sequences := (map k | k in s.sequences && k.space != space :: s.sequences[k]))
  }

  /** Everything in the space goes, with what depends on it, and so do its queued messages. */
  ghost function EmptySpace(g: Graph, sk: SessionKey, space: nat): (g': Graph)
    requires sk in g.sessions
    ensures sk in g'.sessions
  {
    PurgeAll(RemoveCascade(g, sk, EntitiesIn(g.sessions[sk], space)), InSpace(sk, space))
  }

  ghost function MoveEpoch(g: Graph, sk: SessionKey, space: nat, epoch: nat): Graph
    requires sk in g.sessions
  {
    if space in g.sessions[sk].spaces then WithSession(g, sk, SetEpoch(g.sessions[sk], space, epoch)) else g
  }

  /** Emptying a space, then moving it to its next epoch; the emptying may take the space itself. */
  ghost function AdvanceEpoch(g: Graph, sk: SessionKey, space: nat, epoch: nat): Graph
    requires sk in g.sessions
  {
    MoveEpoch(EmptySpace(g, sk, space), sk, space, epoch)
  }

  function Pruned(conn: Connection, now: nat): map<SessionKey, SessionLimiter> {
    map k | k in conn.sessionLimiters && (k in conn.memberships || !conn.sessionLimiters[k].ExpiredAt(now)) ::
      conn.sessionLimiters[k]
  }

  function Join(g: Graph, c: nat, sk: SessionKey, now: nat): Graph
    requires c in g.connections && sk in g.sessions
  {
    var conn, s := g.connections[c], g.sessions[sk];
    var pruned := Pruned(conn, now);
    var limiters := if sk in pruned then pruned else pruned[sk := NewSessionLimiter(s.rateLimit)];
    g.(connections := g.connections[c := conn.(memberships := conn.memberships + {sk}, sessionLimiters := limiters)],
       sessions := g.sessions[sk := s.(members := s.members + {c})])
  }

  function OfSession(sk: SessionKey): OutboundMessage -> bool {
    (m: OutboundMessage) => m.Session() == sk
  }

  ghost function Unlink(g: Graph, c: nat, sk: SessionKey): Graph
    requires c in g.connections && sk in g.sessions
  {
    var conn, s := g.connections[c], g.sessions[sk];
    g.(connections := g.connections[c :=
         conn.(memberships := conn.memberships - {sk},
               sessionLimiters := if sk in conn.sessionLimiters && !conn.sessionLimiters[sk].retainAfterLeave
                                  then conn.sessionLimiters - {sk} else conn.sessionLimiters,
               subscriptions := (set k | k in conn.subscriptions && k.session != sk),
               outbound := conn.outbound.Purge(OfSession(sk)))],
       sessions := g.sessions[sk :=
         s.(members := s.members - {c},
            subscribers := (map sp | sp in s.subscribers :: s.subscribers[sp] - {c}),
            sequences := (map k | k in s.sequences && k.connection != c :: s.sequences[k]))])
  }

  ghost function OwnedIn(s: Session, c: nat): set<nat> {
    set e | e in s.entities && s.entities[e].owner == c
  }

  /** Leaving: the connection's entities go with everything that depends on them, then every trace of
      the membership. */
  ghost function Detach(g: Graph, c: nat, sk: SessionKey): Graph
    requires c in g.connections && sk in g.sessions
  {
    Unlink(RemoveCascade(g, sk, OwnedIn(g.sessions[sk], c)), c, sk)
  }

  function Subscribe(g: Graph, c: nat, k: SpaceKey): Graph
    requires c in g.connections && k.session in g.sessions && k.space in g.sessions[k.session].subscribers
  {
    var conn, s := g.connections[c], g.sessions[k.session];
    g.(connections := g.connections[c := conn.(subscriptions := conn.subscriptions + {k})],
       sessions := g.sessions[k.session := s.(subscribers := s.subscribers[k.space := s.subscribers[k.space] + {c}])])
  }

  function Unsubscribe(g: Graph, c: nat, k: SpaceKey): Graph
    requires c in g.connections && k.session in g.sessions && k.space in g.sessions[k.session].subscribers
  {
    var conn, s := g.connections[c], g.sessions[k.session];
    g.(connections := g.connections[c := conn.(subscriptions := conn.subscriptions - {k},
                                               outbound := conn.outbound.Purge(InSpace(k.session, k.space)))],
       sessions := g.sessions[k.session := s.(subscribers := s.subscribers[k.space := s.subscribers[k.space] - {c}])])
  }

  function Spawn(g: Graph, c: nat, k: SpaceKey, principal: nat): Graph
    requires c in g.connections && k.session in g.sessions && k.space in g.sessions[k.session].spaces
  {
    var conn, s, id := g.connections[c], g.sessions[k.session], g.nextEntity;
    g.(connections := g.connections[c := conn.(ownedEntities := conn.ownedEntities + 1)],
       sessions := g.sessions[k.session :=
         s.(entities := s.entities[id := EntityRecord(id, c, principal, k.space, s.spaces[k.space].epoch, None)])],
       nextEntity := id + 1)
  }

  /** A new position with the index entry that goes with it. */
  ghost function Move(s: Session, e: nat, position: Position, cell: Option<CellKey>): Session
    requires e in s.entities
  {
    var cells := if cell.Some? then s.entityCells[e := cell.value] else s.entityCells - {e};
    s.(entities := s.entities[e := s.entities[e].(position := Some(position))],
       entityCells := cells, cellEntities := CellsOf(cells))
  }

  function OfEntity(sk: SessionKey, space: nat, epoch: nat, e: nat): OutboundMessage -> bool {
    (m: OutboundMessage) => m.Session() == sk && m.space == space && m.epoch == epoch && m.entity == Some(e)
  }

  /** An entity in its new space: no position, no trace in the old space. */
  ghost function Relocate(s: Session, e: nat, space: nat, epoch: nat): Session
    requires e in s.entities
  {
    var rec := s.entities[e];
    var state := map k | k in s.state && !(k.space == rec.space && k.epoch == rec.epoch && k.entity == Some(e)) ::
      s.state[k];
    s.(entities := s.entities[e := rec.(space := space, epoch := epoch, position := None)],
       entityCells := s.entityCells - {e},
       cellEntities := CellsOf(s.entityCells - {e}),
       state := state,
       stateBytes := ByteLen(state),
       sequences := (map k | k in s.sequences
                     && !(k.space == rec.space && k.epoch == rec.epoch && k.entity == Some(e)) :: s.sequences[k]))
  }

  ghost function Transition(g: Graph, sk: SessionKey, e: nat, space: nat, epoch: nat): Graph
    requires sk in g.sessions && e in g.sessions[sk].entities
  {
    var rec := g.sessions[sk].entities[e];
    WithSession(PurgeAll(g, OfEntity(sk, rec.space, rec.epoch, e)), sk, Relocate(g.sessions[sk], e, space, epoch))
  }

  ghost function SweepState(s: Session, now: nat): Session {
    s.(state := Sweep(s.state, now), stateBytes := ByteLen(Sweep(s.state, now)))
  }

  // ------------------------------------------------------------------ one session or one connection replaced

  lemma BudgetsReplaced(g: Graph, g': Graph, config: CoreConfig, c: nat, conn: Connection)
    requires BudgetsOk(g, config) && c in g.connections && BudgetOk(conn, config)
    requires g'.connections == g.connections[c := conn] && g'.nextConnection == g.nextConnection
    ensures BudgetsOk(g', config)
  {
  }

  lemma OwnedSame(g: Graph, g': Graph, c: nat)
    requires g'.sessions.Keys == g.sessions.Keys
    requires forall sk | sk in g.sessions :: g'.sessions[sk].entities == g.sessions[sk].entities
    ensures Owned(g', c) == Owned(g, c)
  {
  }

  lemma CountsSame(g: Graph, g': Graph)
    requires CountsOk(g) && g'.sessions.Keys == g.sessions.Keys && g'.connections.Keys <= g.connections.Keys
    requires forall sk | sk in g.sessions :: g'.sessions[sk].entities == g.sessions[sk].entities
    requires forall c | c in g'.connections :: g'.connections[c].ownedEntities == g.connections[c].ownedEntities
    ensures CountsOk(g')
  {
    forall c | c in g'.connections ensures g'.connections[c].ownedEntities == |Owned(g', c)| {
      OwnedSame(g, g', c);
    }
  }

  /** One connection and one session replaced, with the same owned counter and the same entities. */
  lemma CountsWith(g: Graph, g': Graph, c: nat, conn: Connection, sk: SessionKey, s': Session)
    requires CountsOk(g) && c in g.connections && sk in g.sessions
    requires g'.connections == g.connections[c := conn] && g'.sessions == g.sessions[sk := s']
    requires conn.ownedEntities == g.connections[c].ownedEntities && s'.entities == g.sessions[sk].entities
    ensures CountsOk(g')
  {
    CountsSame(g, g');
  }

  /** Spaces, entities and the cell index untouched. */
  lemma SameStructure(s: Session, s': Session)
    requires SpacesOk(s) && EntitiesOk(s) && PositionsOk(s) && CellsOk(s)
    requires s'.spaces == s.spaces && s'.entities == s.entities
    requires s'.entityCells == s.entityCells && s'.cellEntities == s.cellEntities
    ensures SpacesOk(s') && EntitiesOk(s') && PositionsOk(s') && CellsOk(s')
  {
    forall e ensures ExpectedCell(s', e) == ExpectedCell(s, e) {}
  }

  /** A session may be replaced by one with the same members and entities, in which every scope that
      was current still is. */
  ghost predicate Extends(s: Session, s': Session) {
    && s'.members == s.members
    && s'.entities.Keys == s.entities.Keys
    && (forall e | e in s.entities ::
        s'.entities[e].space == s.entities[e].space && s'.entities[e].owner == s.entities[e].owner)
    && (forall sp | sp in s.spaces :: sp in s'.spaces && s'.spaces[sp].epoch == s.spaces[sp].epoch)
    && (forall sp | sp in s.subscribers :: sp in s'.subscribers && s'.subscribers[sp] == s.subscribers[sp])
    && (forall sp | sp in s'.subscribers && sp !in s.subscribers :: s'.subscribers[sp] == {})
  }

  lemma ExtendMembers(g: Graph, sk: SessionKey, s': Session)
    requires MembersKnown(g) && MembershipsKnown(g) && sk in g.sessions && s'.members == g.sessions[sk].members
    ensures MembersKnown(WithSession(g, sk, s')) && MembershipsKnown(WithSession(g, sk, s'))
  {
  }

  lemma ExtendSubscriptions(g: Graph, sk: SessionKey, s': Session)
    requires SubscriptionsKnown(g) && sk in g.sessions && Extends(g.sessions[sk], s')
    ensures SubscriptionsKnown(WithSession(g, sk, s'))
  {
  }

  lemma ExtendSubscribers(g: Graph, sk: SessionKey, s': Session)
    requires SubscribersKnown(g) && sk in g.sessions && Extends(g.sessions[sk], s')
    ensures SubscribersKnown(WithSession(g, sk, s'))
  {
  }

  lemma ExtendOwners(g: Graph, sk: SessionKey, s': Session)
    requires OwnersOk(g) && CountsOk(g) && sk in g.sessions && Extends(g.sessions[sk], s')
    ensures OwnersOk(WithSession(g, sk, s')) && CountsOk(WithSession(g, sk, s'))
  {
    var g' := WithSession(g, sk, s');
    forall c | c in g'.connections ensures g'.connections[c].ownedEntities == |Owned(g', c)| {
      assert Owned(g', c) == Owned(g, c);
    }
  }

  lemma ExtendLinks(g: Graph, sk: SessionKey, s': Session)
    requires LinksOk(g) && sk in g.sessions && Extends(g.sessions[sk], s')
    ensures LinksOk(WithSession(g, sk, s'))
  {
    ExtendMembers(g, sk, s');
    ExtendSubscriptions(g, sk, s');
    ExtendSubscribers(g, sk, s');
    ExtendOwners(g, sk, s');
  }

  lemma SessionReplaced(g: Graph, config: CoreConfig, sk: SessionKey, s': Session)
    requires SessionsOk(g, config) && BudgetsOk(g, config) && SessionOk(s', config)
    ensures SessionsOk(WithSession(g, sk, s'), config) && BudgetsOk(WithSession(g, sk, s'), config)
  {
  }

  lemma ExtendQueues(g: Graph, config: CoreConfig, sk: SessionKey, s': Session)
    requires QueuesOk(g, config) && sk in g.sessions && Extends(g.sessions[sk], s')
    ensures QueuesOk(WithSession(g, sk, s'), config)
  {
    var g' := WithSession(g, sk, s');
    forall c, m | c in g'.connections && g'.connections[c].outbound.Holds(m) ensures Deliverable(g', c, m) {
      assert Deliverable(g, c, m);
    }
  }

  lemma ExtendKeepsInv(g: Graph, config: CoreConfig, sk: SessionKey, s': Session)
    requires Inv(g, config) && sk in g.sessions && Extends(g.sessions[sk], s') && SessionOk(s', config)
    ensures Inv(WithSession(g, sk, s'), config)
  {
    ExtendLinks(g, sk, s');
    ExtendQueues(g, config, sk, s');
    SessionReplaced(g, config, sk, s');
  }

  /** Replacing a connection's credentials, budgets or queue. */
  lemma ReplaceConnection(g: Graph, config: CoreConfig, c: nat, conn: Connection)
    requires Inv(g, config) && c in g.connections
    requires conn.memberships == g.connections[c].memberships && conn.subscriptions == g.connections[c].subscriptions
    requires conn.ownedEntities == g.connections[c].ownedEntities
    requires conn.sessionLimiters.Keys == g.connections[c].sessionLimiters.Keys
    requires conn.outbound.Bounded(config.queue)
    requires forall m | conn.outbound.Holds(m) :: g.connections[c].outbound.Holds(m) || Deliverable(g, c, m)
    ensures Inv(WithConnection(g, c, conn), config)
  {
    var g' := WithConnection(g, c, conn);
    assert SessionsOk(g', config);
    ReplaceLinks(g, c, conn);
    ReplaceQueues(g, config, c, conn);
    assert |conn.sessionLimiters| == |g.connections[c].sessionLimiters|;
    assert BudgetsOk(g', config);
  }

  lemma ReplaceLinks(g: Graph, c: nat, conn: Connection)
    requires LinksOk(g) && c in g.connections
    requires conn.memberships == g.connections[c].memberships && conn.subscriptions == g.connections[c].subscriptions
    requires conn.ownedEntities == g.connections[c].ownedEntities
    ensures LinksOk(WithConnection(g, c, conn))
  {
    ReplaceMembers(g, c, conn);
    ReplaceSubscribers(g, c, conn);
    CountsSame(g, WithConnection(g, c, conn));
  }

  lemma ReplaceMembers(g: Graph, c: nat, conn: Connection)
    requires MembersKnown(g) && MembershipsKnown(g) && OwnersOk(g) && c in g.connections
    requires conn.memberships == g.connections[c].memberships
    ensures var g' := WithConnection(g, c, conn); MembersKnown(g') && MembershipsKnown(g') && OwnersOk(g')
  {
  }

  lemma ReplaceSubscribers(g: Graph, c: nat, conn: Connection)
    requires SubscriptionsKnown(g) && SubscribersKnown(g) && c in g.connections
    requires conn.memberships == g.connections[c].memberships && conn.subscriptions == g.connections[c].subscriptions
    ensures var g' := WithConnection(g, c, conn); SubscriptionsKnown(g') && SubscribersKnown(g')
  {
  }

  lemma ReplaceQueues(g: Graph, config: CoreConfig, c: nat, conn: Connection)
    requires QueuesOk(g, config) && c in g.connections
    requires conn.subscriptions == g.connections[c].subscriptions
    requires conn.outbound.Bounded(config.queue)
    requires forall m | conn.outbound.Holds(m) :: g.connections[c].outbound.Holds(m) || Deliverable(g, c, m)
    ensures QueuesOk(WithConnection(g, c, conn), config)
  {
    var g' := WithConnection(g, c, conn);
    forall i, m | i in g'.connections && g'.connections[i].outbound.Holds(m) ensures Deliverable(g', i, m) {
      assert Deliverable(g, i, m);
    }
  }

  lemma PurgeAllKeepsInv(g: Graph, config: CoreConfig, drop: OutboundMessage -> bool)
    requires Inv(g, config)
    ensures Inv(PurgeAll(g, drop), config)
    ensures forall c, m | c in g.connections && PurgeAll(g, drop).connections[c].outbound.Holds(m) :: !drop(m)
  {
    PurgeAllSessions(g, config, drop);
    PurgeAllLinks(g, drop);
    PurgeAllQueues(g, config, drop);
    PurgeAllBudgets(g, config, drop);
  }

  lemma PurgeAllSessions(g: Graph, config: CoreConfig, drop: OutboundMessage -> bool)
    requires SessionsOk(g, config)
    ensures SessionsOk(PurgeAll(g, drop), config)
  {
  }

  lemma PurgeAllBudgets(g: Graph, config: CoreConfig, drop: OutboundMessage -> bool)
    requires BudgetsOk(g, config)
    ensures BudgetsOk(PurgeAll(g, drop), config)
  {
  }

  lemma PurgeAllQueues(g: Graph, config: CoreConfig, drop: OutboundMessage -> bool)
    requires QueuesOk(g, config)
    ensures QueuesOk(PurgeAll(g, drop), config)
    ensures forall c, m | c in g.connections && PurgeAll(g, drop).connections[c].outbound.Holds(m) :: !drop(m)
  {
    var g' := PurgeAll(g, drop);
    forall c | c in g'.connections
      ensures g'.connections[c].outbound.Bounded(config.queue)
      ensures forall m | g'.connections[c].outbound.Holds(m) :: Deliverable(g', c, m) && !drop(m)
    {
      KeepBounded(g.connections[c].outbound, config.queue, Not(drop));
      forall m | g'.connections[c].outbound.Holds(m) ensures Deliverable(g', c, m) {
        assert Deliverable(g, c, m);
      }
    }
  }

  lemma PurgeAllLinks(g: Graph, drop: OutboundMessage -> bool)
    requires LinksOk(g)
    ensures LinksOk(PurgeAll(g, drop))
  {
    SameTiesKeepLinks(g, PurgeAll(g, drop));
  }

  /** The same sessions, and connections with the same ties to them. */
  ghost predicate SameTies(g: Graph, g': Graph) {
    && g'.sessions == g.sessions && g'.nextEntity == g.nextEntity && g'.connections.Keys == g.connections.Keys
    && forall c | c in g.connections ::
         && g'.connections[c].memberships == g.connections[c].memberships
         && g'.connections[c].subscriptions == g.connections[c].subscriptions
         && g'.connections[c].ownedEntities == g.connections[c].ownedEntities
  }

  lemma SameTiesKeepLinks(g: Graph, g': Graph)
    requires LinksOk(g) && SameTies(g, g')
    ensures LinksOk(g')
  {
    SameTiesMembers(g, g');
    SameTiesSubscribers(g, g');
    CountsSame(g, g');
  }

  lemma SameTiesMembers(g: Graph, g': Graph)
    requires MembersKnown(g) && MembershipsKnown(g) && OwnersOk(g) && SameTies(g, g')
    ensures MembersKnown(g') && MembershipsKnown(g') && OwnersOk(g')
  {
  }

  lemma SameTiesSubscribers(g: Graph, g': Graph)
    requires SubscriptionsKnown(g) && SubscribersKnown(g) && SameTies(g, g')
    ensures SubscriptionsKnown(g') && SubscribersKnown(g')
  {
  }
}
