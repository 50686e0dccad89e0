/** The relay's session graph as a value: connections, sessions, nested spaces, entities, the cell
    index, sequences, cached state and outbound queues, together with the invariant that ties these
    redundant structures to each other. */
module SessionGraph {
  import opened Model
  import opened Queue
  import opened Spatial
  import opened Cache
  import opened RateLimit

  datatype Access = ReadAccess | WriteAccess | ReadWriteAccess
  {
    predicate PermitsRead() { !WriteAccess? }
    predicate PermitsWrite() { !ReadAccess? }
  }

  datatype ChannelScope = ChannelScope(session: SessionKey, channel: nat)

  datatype Grants = Grants(
    namespaces: map<nat, Access>,
    sessions: map<SessionKey, Access>,
    spaces: map<SpaceKey, Access>,
    channels: map<ChannelScope, Access>)
  {
    predicate CanReadSession(k: SessionKey) {
      && k.namespace in namespaces && namespaces[k.namespace].PermitsRead()
      && k in sessions && sessions[k].PermitsRead()
    }
    predicate CanWriteSession(k: SessionKey) {
      && k.namespace in namespaces && namespaces[k.namespace].PermitsWrite()
      && k in sessions && sessions[k].PermitsWrite()
    }
    predicate CanReadSpace(k: SpaceKey) { k in spaces && spaces[k].PermitsRead() }
    predicate CanWriteSpace(k: SpaceKey) { k in spaces && spaces[k].PermitsWrite() }
    predicate CanReadChannel(k: ChannelScope) { k in channels && channels[k].PermitsRead() }
    predicate CanWriteChannel(k: ChannelScope) { k in channels && channels[k].PermitsWrite() }
  }

  datatype Principal = Principal(id: nat, grants: Grants)

  datatype CoreConfig = CoreConfig(
    queue: Queue.Config,
    publishRateLimit: Policy,
    maxConnections: nat,
    maxSessions: nat,
    maxMemberships: nat,
    maxSubscriptions: nat,
    maxOwnedEntities: nat,
    maxPayload: nat,
    maxSpaces: nat,
    maxTombstones: nat,
    maxEntities: nat,
    maxStateEntries: nat,
    maxStateBytes: nat,
    maxSequenceKeys: nat,
    maxEmissions: nat,
    journalCapacity: nat)
  {
    predicate Valid() {
      && queue.Validate().None? && publishRateLimit.Valid()
      && maxConnections > 0 && maxSessions > 0 && maxMemberships > 0 && maxSubscriptions > 0
      && maxOwnedEntities > 0 && maxPayload > 0 && maxSpaces > 0 && maxTombstones > 0 && maxEntities > 0
      && maxStateEntries > 0 && maxStateBytes > 0 && maxSequenceKeys > 0 && maxEmissions > 0
      && maxSpaces <= maxTombstones
    }
  }

  datatype EntityRecord = EntityRecord(
    id: nat, owner: nat, principal: nat, space: nat, epoch: nat, position: Option<Position>)

  datatype SequenceKey = SequenceKey(
    connection: nat, space: nat, epoch: nat, entity: Option<nat>, channel: nat, component: nat)

  datatype Session = Session(
    members: set<nat>,
    rateLimit: Option<Policy>,
    spaces: map<nat, SpaceDescriptor>,
    tombstones: map<nat, nat>,
    subscribers: map<nat, set<nat>>,
    entities: map<nat, EntityRecord>,
    entityCells: map<nat, CellKey>,
    cellEntities: map<CellKey, set<nat>>,
    sequences: map<SequenceKey, nat>,
    state: Store,
    stateBytes: nat)

  const NEW_SESSION := Session({}, None, map[], map[], map[], map[], map[], map[], map[], map[], 0)

  datatype Connection = Connection(
    authenticated: Option<Principal>,
    memberships: set<SessionKey>,
    subscriptions: set<SpaceKey>,
    ownedEntities: nat,
    limiter: Limiter,
    sessionLimiters: map<SessionKey, SessionLimiter>,
    outbound: Lanes)

  const NEW_CONNECTION := Connection(None, {}, {}, 0, FRESH_LIMITER, map[], EMPTY_LANES)

  datatype Graph = Graph(
    connections: map<nat, Connection>,
    sessions: map<SessionKey, Session>,
    nextConnection: nat,
    nextEntity: nat)

  // ------------------------------------------------------------------ invariant of one session

  function CellMembers(entityCells: map<nat, CellKey>, k: CellKey): set<nat> {
    set e | e in entityCells && entityCells[e] == k
  }

  function UsedCells(entityCells: map<nat, CellKey>): set<CellKey> {
    set e | e in entityCells :: entityCells[e]
  }

  /** The plain inverse of an entity-to-cell map. */
  function CellsOf(entityCells: map<nat, CellKey>): map<CellKey, set<nat>> {
    map k | k in UsedCells(entityCells) :: CellMembers(entityCells, k)
  }

  /** The cell an entity must be indexed under, from its position and its space alone. */
  ghost function ExpectedCell(s: Session, e: nat): Option<CellKey> {
    if e in s.entities && s.entities[e].position.Some?
       && s.entities[e].space in s.spaces && s.spaces[s.entities[e].space].Validate().None?
    then
      var r := CellFor(s.entities[e].position.value, s.spaces[s.entities[e].space], s.entities[e].epoch);
      if r.Ok? then r.value else None
    else None
  }

  ghost predicate SpacesOk(s: Session) {
    forall sp | sp in s.spaces ::
      && s.spaces[sp].id == sp && s.spaces[sp].Validate().None?
      && (s.spaces[sp].parent.Some? ==>
            s.spaces[sp].parent.value.parentSpace in s.spaces && s.spaces[sp].parent.value.anchorEntity in s.entities)
  }

  ghost predicate EntitiesOk(s: Session) {
    forall e | e in s.entities ::
      && s.entities[e].id == e && s.entities[e].space in s.spaces
      && s.entities[e].epoch == s.spaces[s.entities[e].space].epoch
  }

  ghost predicate PositionsOk(s: Session)
    requires SpacesOk(s) && EntitiesOk(s)
  {
    forall e | e in s.entities && s.entities[e].position.Some? ::
      CellFor(s.entities[e].position.value, s.spaces[s.entities[e].space], s.entities[e].epoch).Ok?
  }

  ghost predicate CellsOk(s: Session) {
    && (forall e :: e in s.entityCells <==> ExpectedCell(s, e).Some?)
    && (forall e | e in s.entityCells :: ExpectedCell(s, e) == Some(s.entityCells[e]))
    && s.cellEntities == CellsOf(s.entityCells)
  }

  /** A scope names an installed space at its current epoch and, if any, an entity living there. */
  ghost predicate RefOk(s: Session, space: nat, epoch: nat, entity: Option<nat>) {
    && space in s.spaces && s.spaces[space].epoch == epoch
    && (entity.Some? ==> entity.value in s.entities && s.entities[entity.value].space == space)
  }

  ghost predicate KeysOk(s: Session) {
    && (forall k | k in s.sequences :: RefOk(s, k.space, k.epoch, k.entity) && k.connection in s.members)
    && (forall k | k in s.state :: RefOk(s, k.space, k.epoch, k.entity))
  }

  ghost predicate SpaceTablesOk(s: Session, config: CoreConfig) {
    && s.subscribers.Keys == s.spaces.Keys
    && s.tombstones.Keys !! s.spaces.Keys
    && |s.spaces| <= config.maxSpaces
    && |s.spaces| + |s.tombstones| <= config.maxTombstones
  }

  ghost predicate Ranks(rank: map<nat, nat>, spaces: map<nat, SpaceDescriptor>) {
    forall sp | sp in spaces ::
      && sp in rank
      && (spaces[sp].parent.Some? ==>
            spaces[sp].parent.value.parentSpace in rank && rank[spaces[sp].parent.value.parentSpace] < rank[sp])
  }

  /** The parent relation has no cycle: every space can be ranked above its parent. */
  ghost predicate Acyclic(spaces: map<nat, SpaceDescriptor>) {
    exists rank :: Ranks(rank, spaces)
  }

  ghost predicate SessionOk(s: Session, config: CoreConfig) {
    && SpacesOk(s) && EntitiesOk(s) && PositionsOk(s) && CellsOk(s) && KeysOk(s)
    && SpaceTablesOk(s, config) && Acyclic(s.spaces)
    && s.stateBytes == ByteLen(s.state)
    && |s.entities| <= config.maxEntities
    && |s.sequences| <= config.maxSequenceKeys
    && |s.state| <= config.maxStateEntries && s.stateBytes <= config.maxStateBytes
  }

  // ------------------------------------------------------------------ invariant across structures

  ghost predicate MembersKnown(g: Graph) {
    forall sk, c | sk in g.sessions && c in g.sessions[sk].members ::
      c in g.connections && sk in g.connections[c].memberships
  }

  ghost predicate MembershipsKnown(g: Graph) {
    forall c, sk | c in g.connections && sk in g.connections[c].memberships ::
      sk in g.sessions && c in g.sessions[sk].members
  }

  ghost predicate SubscriptionsKnown(g: Graph) {
    forall c, k | c in g.connections && k in g.connections[c].subscriptions ::
      && k.session in g.connections[c].memberships && k.session in g.sessions
      && k.space in g.sessions[k.session].subscribers && c in g.sessions[k.session].subscribers[k.space]
  }

  ghost predicate SubscribersKnown(g: Graph) {
    forall sk, sp, c | sk in g.sessions && sp in g.sessions[sk].subscribers && c in g.sessions[sk].subscribers[sp] ::
      c in g.connections && SpaceKey(sk, sp) in g.connections[c].subscriptions
  }

  ghost predicate OwnersOk(g: Graph) {
    forall sk, e | sk in g.sessions && e in g.sessions[sk].entities ::
      g.sessions[sk].entities[e].owner in g.sessions[sk].members && 0 < e < g.nextEntity
  }

  ghost function Owned(g: Graph, c: nat): set<(SessionKey, nat)> {
    set sk, e | sk in g.sessions && e in g.sessions[sk].entities && g.sessions[sk].entities[e].owner == c :: (sk, e)
  }

  /** The running counter of every connection is the true number of entities it owns. */
  ghost predicate CountsOk(g: Graph) {
    forall c | c in g.connections :: g.connections[c].ownedEntities == |Owned(g, c)|
  }

  /** A queued message goes to a subscriber of its space and names nothing that is gone. */
  ghost predicate Deliverable(g: Graph, c: nat, m: OutboundMessage)
    requires c in g.connections
  {
    && m.Space() in g.connections[c].subscriptions && m.Session() in g.sessions
    && RefOk(g.sessions[m.Session()], m.space, m.epoch, m.entity)
  }

  ghost predicate QueuesOk(g: Graph, config: CoreConfig) {
    forall c | c in g.connections ::
      && g.connections[c].outbound.Bounded(config.queue)
      && forall m | g.connections[c].outbound.Holds(m) :: Deliverable(g, c, m)
  }

  ghost predicate BudgetOk(conn: Connection, config: CoreConfig) {
    && conn.memberships <= conn.sessionLimiters.Keys
    && |conn.sessionLimiters| <= config.maxMemberships
    && |conn.subscriptions| <= config.maxSubscriptions
    && conn.ownedEntities <= config.maxOwnedEntities
  }

  ghost predicate BudgetsOk(g: Graph, config: CoreConfig) {
    forall c | c in g.connections :: 0 < c < g.nextConnection && BudgetOk(g.connections[c], config)
  }

  ghost predicate SessionsOk(g: Graph, config: CoreConfig) {
    forall sk | sk in g.sessions :: SessionOk(g.sessions[sk], config)
  }

  ghost predicate LinksOk(g: Graph) {
    && MembersKnown(g) && MembershipsKnown(g) && SubscriptionsKnown(g) && SubscribersKnown(g)
    && OwnersOk(g) && CountsOk(g)
  }

  ghost predicate Inv(g: Graph, config: CoreConfig) {
    SessionsOk(g, config) && LinksOk(g) && QueuesOk(g, config) && BudgetsOk(g, config)
  }

  lemma SessionsReplaced(g: Graph, g': Graph, config: CoreConfig, sk: SessionKey, s': Session)
    requires SessionsOk(g, config) && SessionOk(s', config) && g'.sessions == g.sessions[sk := s']
    ensures SessionsOk(g', config)
  {
  }
}
