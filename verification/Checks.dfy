/** The admission checks of the core's commands: each yields the first error of its command, or
    nothing when the command goes through. */
module Checks {
  import opened Model
  import opened Spatial
  import opened SessionGraph
  import opened CommandInvariants
  import opened MemberInvariants
  import opened Publishing

  type Connections = map<nat, Connection>
  type Sessions = map<SessionKey, Session>

  predicate NonZeroSession(sk: SessionKey) { sk.namespace != 0 && sk.session != 0 }

  predicate NonZeroSpace(k: SpaceKey) { NonZeroSession(k.session) && k.space != 0 }

  /** The connection exists and has authenticated. */
  function CheckPrincipal(cs: Connections, c: nat): Option<CoreError> {
    if c == 0 then Some(ReservedZeroId)
    else if c !in cs then Some(UnknownConnection(c))
    else if cs[c].authenticated.None? then Some(AuthenticationRequired)
    else None
  }

  function CheckMember(cs: Connections, c: nat, sk: SessionKey): Option<CoreError> {
    if c !in cs then Some(UnknownConnection(c))
    else if sk !in cs[c].memberships then Some(SessionMembershipRequired(sk))
    else None
  }

  function CheckSubscriber(cs: Connections, c: nat, k: SpaceKey): Option<CoreError> {
    if c !in cs then Some(UnknownConnection(c))
    else if k !in cs[c].subscriptions then Some(SubscriptionRequired(k))
    else None
  }

  function CheckInstall(ss: Sessions, config: CoreConfig, sk: SessionKey, d: SpaceDescriptor): Option<CoreError> {
    if !NonZeroSession(sk) then Some(ReservedZeroId)
    else if d.Validate().Some? then Some(InvalidSpace(d.Validate().value))
    else if sk !in ss then Some(SessionNotFound(sk))
    else
      var s := ss[sk];
      if d.id in s.spaces then Some(SpaceAlreadyExists(SpaceKey(sk, d.id)))
      else if |s.spaces| == config.maxSpaces then Some(SpaceLimitReached)
      else if d.id in s.tombstones && d.epoch <= s.tombstones[d.id]
      then Some(EpochDidNotAdvance(s.tombstones[d.id], d.epoch))
      else if d.id !in s.tombstones && |s.spaces| + |s.tombstones| == config.maxTombstones
      then Some(SpaceIdHistoryLimitReached)
      else if d.parent.None? then None
      else
        var p := d.parent.value;
        if p.parentSpace !in s.spaces then Some(ParentSpaceNotFound(p.parentSpace))
        else if p.anchorEntity !in s.entities then Some(ParentAnchorNotFound(p.anchorEntity))
        else if s.entities[p.anchorEntity].space != p.parentSpace
        then Some(ParentAnchorInWrongSpace(p.anchorEntity, p.parentSpace))
        else None
  }

  function CheckAdvance(ss: Sessions, sk: SessionKey, space: nat, epoch: nat): Option<CoreError> {
    if !NonZeroSession(sk) || space == 0 || epoch == 0 then Some(ReservedZeroId)
    else if sk !in ss then Some(SessionNotFound(sk))
    else if space !in ss[sk].spaces then Some(SpaceNotFound(SpaceKey(sk, space)))
    else if epoch <= ss[sk].spaces[space].epoch then Some(EpochDidNotAdvance(ss[sk].spaces[space].epoch, epoch))
    else None
  }

  /** Joining, once it is known that the connection is not a member yet. */
  function CheckJoinAccess(cs: Connections, ss: Sessions, c: nat, sk: SessionKey): Option<CoreError> {
    if c == 0 || !NonZeroSession(sk) then Some(ReservedZeroId)
    else if CheckPrincipal(cs, c).Some? then CheckPrincipal(cs, c)
    else if !cs[c].authenticated.value.grants.CanReadSession(sk) then Some(AccessDenied)
    else if sk !in ss then Some(SessionNotFound(sk))
    else None
  }

  function CheckSubscribe(cs: Connections, ss: Sessions, config: CoreConfig, c: nat, k: SpaceKey): Option<CoreError> {
    if c == 0 || !NonZeroSpace(k) then Some(ReservedZeroId)
    else if CheckPrincipal(cs, c).Some? then CheckPrincipal(cs, c)
    else if !cs[c].authenticated.value.grants.CanReadSession(k.session)
            || !cs[c].authenticated.value.grants.CanReadSpace(k)
    then Some(AccessDenied)
    else if CheckMember(cs, c, k.session).Some? then CheckMember(cs, c, k.session)
    else if k in cs[c].subscriptions then None
    else if |cs[c].subscriptions| == config.maxSubscriptions then Some(SubscriptionLimitReached)
    else if k.session !in ss then Some(SessionNotFound(k.session))
    else if k.space !in ss[k.session].spaces then Some(SpaceNotFound(k))
    else None
  }

  function CheckWriteSpace(cs: Connections, c: nat, k: SpaceKey): Option<CoreError> {
    if CheckPrincipal(cs, c).Some? then CheckPrincipal(cs, c)
    else if !cs[c].authenticated.value.grants.CanWriteSession(k.session)
            || !cs[c].authenticated.value.grants.CanWriteSpace(k)
    then Some(AccessDenied)
    else if CheckMember(cs, c, k.session).Some? then CheckMember(cs, c, k.session)
    else CheckSubscriber(cs, c, k)
  }

  function CheckSpawn(cs: Connections, ss: Sessions, config: CoreConfig, c: nat, k: SpaceKey,
                      epoch: nat): Option<CoreError> {
    if c == 0 || !NonZeroSpace(k) || epoch == 0 then Some(ReservedZeroId)
    else if CheckWriteSpace(cs, c, k).Some? then CheckWriteSpace(cs, c, k)
    else if cs[c].ownedEntities == config.maxOwnedEntities then Some(OwnedEntityLimitReached)
    else if k.session !in ss then Some(SessionNotFound(k.session))
    else if k.space !in ss[k.session].spaces then Some(SpaceNotFound(k))
    else if ss[k.session].spaces[k.space].epoch != epoch
            then Some(SpaceEpochMismatch(ss[k.session].spaces[k.space].epoch, epoch))
    else if |ss[k.session].entities| == config.maxEntities then Some(EntityLimitReached)
    else None
  }

  function CheckOwner(ss: Sessions, sk: SessionKey, c: nat, e: nat): Option<CoreError> {
    if sk !in ss then Some(SessionNotFound(sk))
    else if e !in ss[sk].entities then Some(EntityNotFound(e))
    else if ss[sk].entities[e].owner != c then Some(EntityNotOwned(e))
    else None
  }

  /** The cell of a new position, or why the position is refused. */
  function PlaceEntity(s: Session, e: nat, position: Position): Result<Option<CellKey>, CoreError>
    requires e in s.entities && s.entities[e].space in s.spaces && s.spaces[s.entities[e].space].Validate().None?
  {
    var d := s.spaces[s.entities[e].space];
    if d.ValidatePosition(position).Some? then Err(InvalidEntityPosition(d.ValidatePosition(position).value))
    else
      var cell := CellFor(position, d, s.entities[e].epoch);
      if cell.Ok? then Ok(cell.value)
      else if cell.error.CellOutOfRange? then Err(SpatialCellOutOfRange)
      else Err(InvalidEntityPosition(DimensionMismatch))
  }

  /** Who may move an entity, before the position itself is looked at. */
  function CheckReposition(cs: Connections, ss: Sessions, c: nat, sk: SessionKey, e: nat): Option<CoreError> {
    if c == 0 || !NonZeroSession(sk) || e == 0 then Some(ReservedZeroId)
    else if CheckPrincipal(cs, c).Some? then CheckPrincipal(cs, c)
    else if !cs[c].authenticated.value.grants.CanWriteSession(sk) then Some(AccessDenied)
    else if CheckMember(cs, c, sk).Some? then CheckMember(cs, c, sk)
    else if CheckOwner(ss, sk, c, e).Some? then CheckOwner(ss, sk, c, e)
    else if !cs[c].authenticated.value.grants.CanWriteSpace(SpaceKey(sk, ss[sk].entities[e].space))
            then Some(AccessDenied)
    else CheckSubscriber(cs, c, SpaceKey(sk, ss[sk].entities[e].space))
  }

  function CheckRemoveEntity(cs: Connections, ss: Sessions, c: nat, sk: SessionKey, e: nat): Option<CoreError> {
    if c == 0 || !NonZeroSession(sk) || e == 0 then Some(ReservedZeroId)
    else if CheckPrincipal(cs, c).Some? then CheckPrincipal(cs, c)
    else if CheckMember(cs, c, sk).Some? then CheckMember(cs, c, sk)
    else if sk !in ss || e !in ss[sk].entities then Some(EntityNotFound(e))
    else CheckOwner(ss, sk, c, e)
  }

  function CheckTransition(cs: Connections, ss: Sessions, c: nat, sk: SessionKey, e: nat,
                           source: nat, sourceEpoch: nat, destination: nat, destinationEpoch: nat): Option<CoreError> {
    if c == 0 || !NonZeroSession(sk) || e == 0 || source == 0 || sourceEpoch == 0 || destination == 0
       || destinationEpoch == 0
    then Some(ReservedZeroId)
    else if CheckPrincipal(cs, c).Some? then CheckPrincipal(cs, c)
    else if !cs[c].authenticated.value.grants.CanWriteSession(sk)
            || !cs[c].authenticated.value.grants.CanWriteSpace(SpaceKey(sk, source))
            || !cs[c].authenticated.value.grants.CanWriteSpace(SpaceKey(sk, destination))
    then Some(AccessDenied)
    else if CheckMember(cs, c, sk).Some? then CheckMember(cs, c, sk)
    else if CheckSubscriber(cs, c, SpaceKey(sk, source)).Some? then CheckSubscriber(cs, c, SpaceKey(sk, source))
    else if CheckSubscriber(cs, c, SpaceKey(sk, destination)).Some?
            then CheckSubscriber(cs, c, SpaceKey(sk, destination))
    else if sk !in ss then Some(SessionNotFound(sk))
    else
      var s := ss[sk];
      if source !in s.spaces then Some(SpaceNotFound(SpaceKey(sk, source)))
      else if s.spaces[source].epoch != sourceEpoch then Some(SpaceEpochMismatch(s.spaces[source].epoch, sourceEpoch))
      else if destination !in s.spaces then Some(SpaceNotFound(SpaceKey(sk, destination)))
      else if s.spaces[destination].epoch != destinationEpoch
      then Some(SpaceEpochMismatch(s.spaces[destination].epoch, destinationEpoch))
      else if CheckOwner(ss, sk, c, e).Some? then CheckOwner(ss, sk, c, e)
      else if s.entities[e].space != source || s.entities[e].epoch != sourceEpoch then Some(EntitySpaceMismatch(e))
      else None
  }

  // ------------------------------------------------------------------ what the checks establish

  lemma TablesOf(g: Graph, config: CoreConfig, sk: SessionKey)
    requires SessionsOk(g, config) && sk in g.sessions
    ensures SpaceTablesOk(g.sessions[sk], config)
  {
    assert SessionOk(g.sessions[sk], config);
  }

  lemma InstallFitsTables(ss: Sessions, config: CoreConfig, sk: SessionKey, d: SpaceDescriptor)
    requires CheckInstall(ss, config, sk, d).None? && SpaceTablesOk(ss[sk], config)
    ensures CanInstall(ss[sk], config, d)
    ensures d.id in ss[sk].tombstones ==> ss[sk].tombstones[d.id] < d.epoch
  {
  }

  lemma InstallAccepted(g: Graph, config: CoreConfig, sk: SessionKey, d: SpaceDescriptor)
    requires SessionsOk(g, config) && CheckInstall(g.sessions, config, sk, d).None?
    ensures sk in g.sessions && CanInstall(g.sessions[sk], config, d)
    ensures d.id in g.sessions[sk].tombstones ==> g.sessions[sk].tombstones[d.id] < d.epoch
  {
    TablesOf(g, config, sk);
    InstallFitsTables(g.sessions, config, sk, d);
  }

  lemma SubscribeAccepted(g: Graph, config: CoreConfig, c: nat, k: SpaceKey)
    requires SessionsOk(g, config) && BudgetsOk(g, config)
             && CheckSubscribe(g.connections, g.sessions, config, c, k).None?
    requires k !in g.connections[c].subscriptions
    ensures CanSubscribe(g, config, c, k)
  {
    assert SpaceTablesOk(g.sessions[k.session], config) && BudgetOk(g.connections[c], config);
  }

  lemma SpawnRoom(g: Graph, config: CoreConfig, c: nat, sk: SessionKey)
    requires SessionsOk(g, config) && BudgetsOk(g, config) && c in g.connections && sk in g.sessions
    ensures g.connections[c].ownedEntities <= config.maxOwnedEntities && |g.sessions[sk].entities| <= config.maxEntities
  {
    assert BudgetOk(g.connections[c], config);
    assert SessionOk(g.sessions[sk], config);
  }

  lemma SpawnAccepted(g: Graph, config: CoreConfig, c: nat, k: SpaceKey, epoch: nat)
    requires SessionsOk(g, config) && BudgetsOk(g, config) && g.nextEntity > 0
    requires CheckSpawn(g.connections, g.sessions, config, c, k, epoch).None?
    ensures CanSpawn(g, config, c, k) && g.sessions[k.session].spaces[k.space].epoch == epoch
  {
    SpawnRoom(g, config, c, k.session);
  }
}
