/** Each command on the tables as a value: what it answers and the graph it leaves. */
module Outcomes {
  import opened Model
  import opened Sequences
  import opened Queue
  import opened Spatial
  import opened RateLimit
  import opened SessionGraph
  import opened Removing
  import opened Commands
  import opened MemberInvariants
  import opened CellIndex
  import opened Publishing
  import opened Epochs
  import opened Checks
  import opened CoreSteps
  import opened GraphLoops
  import opened RatePolicy

  // ------------------------------------------------------------------ joining

  /** What a join does to the graph, and whether the connection is a member afterwards. */
  ghost function JoinOutcome(g: Graph, config: CoreConfig, c: nat, sk: SessionKey,
                             now: nat): (Graph, Option<CoreError>) {
    var e := CheckJoinAccess(g.connections, g.sessions, c, sk);
    if e.Some? then (g, e)
    else
      var conn := g.connections[c];
      if sk in conn.memberships then (g, None)
      else if |conn.memberships| == config.maxMemberships then (g, Some(MembershipLimitReached))
      else if sk in Pruned(conn, now) || |Pruned(conn, now)| < config.maxMemberships then (Join(g, c, sk, now), None)
      else (WithConnection(g, c, conn.(sessionLimiters := Pruned(conn, now))), Some(MembershipLimitReached))
  }

  method JoinIn(g: Graph, config: CoreConfig, c: nat, sk: SessionKey, now: nat)
    returns (g': Graph, e: Option<CoreError>)
    ensures (g', e) == JoinOutcome(g, config, c, sk, now) && Joins(g, config, c, sk, now, g')
  {
    g', e := g, CheckJoinAccess(g.connections, g.sessions, c, sk);
    if e.Some? { return; }
    var conn := g.connections[c];
    if sk in conn.memberships { return g, None; }
    if |conn.memberships| == config.maxMemberships { return g, Some(MembershipLimitReached); }
    var pruned := Pruned(conn, now);
    if sk !in pruned && |pruned| >= config.maxMemberships {
      return WithConnection(g, c, conn.(sessionLimiters := pruned)), Some(MembershipLimitReached);
    }
    return Join(g, c, sk, now), None;
  }

  ghost predicate Joins(g: Graph, config: CoreConfig, c: nat, sk: SessionKey, now: nat, g': Graph) {
    || g' == g
    || (CanJoin(g, config, c, sk, now) && g' == Join(g, c, sk, now))
    || (c in g.connections && g' == WithConnection(g, c,
                                                   g.connections[c].(sessionLimiters := Pruned(g.connections[c], now))))
  }

  lemma JoinsStep(g: Graph, config: CoreConfig, c: nat, sk: SessionKey, now: nat, g': Graph)
    requires Inv(g, config) && Joins(g, config, c, sk, now, g')
    ensures Advances(g, config, g')
  {
    if g' == g {
      NoStep(g, config);
    } else if CanJoin(g, config, c, sk, now) && g' == Join(g, c, sk, now) {
      JoinStep(g, config, c, sk, now);
    } else {
      PruneStep(g, config, c, now);
    }
  }

  function InSpaces(spaces: set<SpaceKey>): OutboundMessage -> bool { (m: OutboundMessage) => m.Space() in spaces }

  lemma SpacesUntouched(l: Lanes)
    ensures l.Keep(Not(InSpaces({}))) == l
            && Filter(InSpaces({}), l.critical) + Filter(InSpaces({}), l.latest)
               + Filter(InSpaces({}), l.bestEffort) == []
  {
    FilterAll(Not(InSpaces({})), l.critical);
    FilterAll(Not(InSpaces({})), l.latest);
    FilterAll(Not(InSpaces({})), l.bestEffort);
    FilterNone(InSpaces({}), l.critical);
    FilterNone(InSpaces({}), l.latest);
    FilterNone(InSpaces({}), l.bestEffort);
  }

  lemma SameConnection(g: Graph, c: nat)
    requires c in g.connections
    ensures WithConnection(g, c, g.connections[c]) == g
  {
    assert g.connections[c := g.connections[c]] == g.connections;
  }

  /** The session tables are fit for removals and moves. */
  ghost predicate Prepared(g: Graph) {
    forall sk {:trigger Cascadable(g, sk)} | sk in g.sessions :: Cascadable(g, sk)
  }

  lemma PreparedOf(g: Graph, config: CoreConfig)
    requires SessionsOk(g, config)
    ensures Prepared(g)
  {
    forall sk | sk in g.sessions ensures Cascadable(g, sk) { CascadableOf(g, config, sk); }
  }

  method RelocateIn(g: Graph, sk: SessionKey, e: nat, space: nat, epoch: nat) returns (g': Graph)
    requires Prepared(g) && sk in g.sessions && e in g.sessions[sk].entities
    ensures g' == Transition(g, sk, e, space, epoch)
  {
    assert Cascadable(g, sk);
    g' := TransitionIn(g, sk, e, space, epoch);
  }

  ghost function TransitionOutcome(g: Graph, c: nat, sk: SessionKey, e: nat, source: nat, sourceEpoch: nat,
                                   destination: nat, destinationEpoch: nat): (Graph, Option<CoreError>) {
    var refused := CheckTransition(g.connections, g.sessions, c, sk, e, source, sourceEpoch,
                                   destination, destinationEpoch);
    if refused.Some? || (source == destination && sourceEpoch == destinationEpoch) then (g, refused)
    else (Transition(g, sk, e, destination, destinationEpoch), None)
  }

  ghost predicate Transitions(g: Graph, sk: SessionKey, e: nat, space: nat, epoch: nat, g': Graph) {
    g' == g || (sk in g.sessions && CanRelocate(g.sessions[sk], e, space, epoch)
                && g' == Transition(g, sk, e, space, epoch))
  }

  method TransitionEntityIn(g: Graph, c: nat, sk: SessionKey, e: nat, source: nat, sourceEpoch: nat,
                            destination: nat, destinationEpoch: nat)
    returns (g': Graph, refused: Option<CoreError>)
    requires Prepared(g)
    ensures (g', refused) == TransitionOutcome(g, c, sk, e, source, sourceEpoch, destination, destinationEpoch)
    ensures Transitions(g, sk, e, destination, destinationEpoch, g')
  {
    refused := CheckTransition(g.connections, g.sessions, c, sk, e, source, sourceEpoch, destination, destinationEpoch);
    if refused.Some? || (source == destination && sourceEpoch == destinationEpoch) { return g, refused; }
    g' := RelocateIn(g, sk, e, destination, destinationEpoch);
  }

  lemma TransitionsStep(g: Graph, config: CoreConfig, sk: SessionKey, e: nat, space: nat, epoch: nat, g': Graph)
    requires Inv(g, config) && Transitions(g, sk, e, space, epoch, g')
    ensures Advances(g, config, g')
  {
    if g' == g { NoStep(g, config); } else { TransitionStep(g, config, sk, e, space, epoch); }
  }

  // ------------------------------------------------------------------ spaces

  ghost function InstallOutcome(g: Graph, config: CoreConfig, sk: SessionKey,
                                d: SpaceDescriptor): (Graph, Option<CoreError>) {
    var e := CheckInstall(g.sessions, config, sk, d);
    if e.Some? then (g, e) else (WithSession(g, sk, InstallSpace(g.sessions[sk], d)), None)
  }

  lemma InstallOutcomeStep(g: Graph, config: CoreConfig, sk: SessionKey, d: SpaceDescriptor)
    requires Inv(g, config)
    ensures Advances(g, config, InstallOutcome(g, config, sk, d).0)
  {
    if CheckInstall(g.sessions, config, sk, d).Some? { NoStep(g, config); } else { InstallStep(g, config, sk, d); }
  }

  method InstallIn(g: Graph, config: CoreConfig, sk: SessionKey, d: SpaceDescriptor)
    returns (g': Graph, e: Option<CoreError>)
    ensures (g', e) == InstallOutcome(g, config, sk, d)
  {
    g', e := g, CheckInstall(g.sessions, config, sk, d);
    if e.None? { g' := WithSession(g, sk, InstallSpace(g.sessions[sk], d)); }
  }

  /** Not atomic: emptying the space may take the space itself, and then the epoch is refused. */
  ghost function AdvanceOutcome(g: Graph, sk: SessionKey, space: nat, epoch: nat): (Graph, Option<CoreError>) {
    var e := CheckAdvance(g.sessions, sk, space, epoch);
    if e.Some? then (g, e)
    else (AdvanceEpoch(g, sk, space, epoch),
          if space in EmptySpace(g, sk, space).sessions[sk].spaces then None
             else Some(SpaceNotFound(SpaceKey(sk, space))))
  }

  lemma AdvanceOutcomeStep(g: Graph, config: CoreConfig, sk: SessionKey, space: nat, epoch: nat)
    requires Inv(g, config)
    ensures Advances(g, config, AdvanceOutcome(g, sk, space, epoch).0)
  {
    if CheckAdvance(g.sessions, sk, space, epoch).Some? { NoStep(g, config); } else {
      AdvanceStep(g, config, sk, space, epoch);
    }
  }

  method AdvanceIn(g: Graph, sk: SessionKey, space: nat, epoch: nat) returns (g': Graph, e: Option<CoreError>)
    requires Prepared(g)
    ensures (g', e) == AdvanceOutcome(g, sk, space, epoch)
  {
    g', e := g, CheckAdvance(g.sessions, sk, space, epoch);
    if e.None? {
      assert Cascadable(g, sk);
      var gone;
      g', gone := AdvanceSpace(g, sk, space, epoch);
      e := if gone then Some(SpaceNotFound(SpaceKey(sk, space))) else None;
    }
  }

  // ------------------------------------------------------------------ leaving and unsubscribing

  ghost predicate MembershipsExistIn(g: Graph, c: nat) {
    c in g.connections ==> forall sk | sk in g.connections[c].memberships :: sk in g.sessions
  }

  ghost function LeaveOutcome(g: Graph, c: nat, sk: SessionKey): (Graph, Option<CoreError>)
    requires MembershipsExistIn(g, c)
  {
    if c == 0 || !NonZeroSession(sk) then (g, Some(ReservedZeroId))
    else if CheckMember(g.connections, c, sk).Some? then (g, CheckMember(g.connections, c, sk))
    else (Detach(g, c, sk), None)
  }

  ghost predicate Leaves(g: Graph, c: nat, sk: SessionKey, g': Graph) {
    g' == g || (c in g.connections && sk in g.sessions && g' == Detach(g, c, sk))
  }

  lemma LeavesStep(g: Graph, config: CoreConfig, c: nat, sk: SessionKey, g': Graph)
    requires Inv(g, config) && Leaves(g, c, sk, g')
    ensures Advances(g, config, g')
  {
    if g' == g { NoStep(g, config); } else { DetachStep(g, config, c, sk); }
  }

  method LeaveIn(g: Graph, c: nat, sk: SessionKey) returns (g': Graph, e: Option<CoreError>)
    requires Prepared(g) && MembershipsExistIn(g, c)
    ensures (g', e) == LeaveOutcome(g, c, sk) && Leaves(g, c, sk, g')
  {
    if c == 0 || !NonZeroSession(sk) { return g, Some(ReservedZeroId); }
    e := CheckMember(g.connections, c, sk);
    if e.Some? { return g, e; }
    assert Cascadable(g, sk);
    g' := DetachMember(g, c, sk);
  }

  ghost function UnsubscribeOutcome(g: Graph, c: nat, k: SpaceKey): (Graph, Option<CoreError>) {
    if c == 0 || !NonZeroSpace(k) then (g, Some(ReservedZeroId))
    else if CheckPrincipal(g.connections, c).Some? then (g, CheckPrincipal(g.connections, c))
    else if k in g.connections[c].subscriptions && CanUnsubscribe(g, c, k) then (Unsubscribe(g, c, k), None)
    else (g, None)
  }

  ghost predicate Unsubscribes(g: Graph, c: nat, k: SpaceKey, g': Graph) {
    g' == g || (CanUnsubscribe(g, c, k) && g' == Unsubscribe(g, c, k))
  }

  lemma UnsubscribesStep(g: Graph, config: CoreConfig, c: nat, k: SpaceKey, g': Graph)
    requires Inv(g, config) && Unsubscribes(g, c, k, g')
    ensures Advances(g, config, g')
  {
    if g' == g {
      NoStep(g, config);
    } else {
      UnsubscribeKeepsInv(g, config, c, k);
      SameEpochs(g.sessions[k.session], g'.sessions[k.session]);
      WithSessionLater(g, g', k.session, g'.sessions[k.session]);
    }
  }

  ghost predicate SubscribedExist(g: Graph, c: nat) {
    c in g.connections ==> forall k | k in g.connections[c].subscriptions :: CanUnsubscribe(g, c, k)
  }

  lemma SubscribedExistOf(g: Graph, c: nat)
    requires SubscriptionsKnown(g)
    ensures SubscribedExist(g, c)
  {
  }

  method UnsubscribeIn(g: Graph, c: nat, k: SpaceKey) returns (g': Graph, e: Option<CoreError>)
    requires SubscribedExist(g, c)
    ensures (g', e) == UnsubscribeOutcome(g, c, k) && Unsubscribes(g, c, k, g')
    ensures e.None? ==> k !in g'.connections[c].subscriptions
  {
    if c == 0 || !NonZeroSpace(k) { return g, Some(ReservedZeroId); }
    e := CheckPrincipal(g.connections, c);
    if e.Some? || k !in g.connections[c].subscriptions { return g, e; }
    g' := Unsubscribe(g, c, k);
  }

  // ------------------------------------------------------------------ entities

  ghost function SpawnOutcome(g: Graph, config: CoreConfig, c: nat, k: SpaceKey,
                              epoch: nat): (Graph, Option<CoreError>) {
    var e := CheckSpawn(g.connections, g.sessions, config, c, k, epoch);
    if e.Some? then (g, e) else (Spawn(g, c, k, g.connections[c].authenticated.value.id), None)
  }

  lemma SpawnOutcomeStep(g: Graph, config: CoreConfig, c: nat, k: SpaceKey, epoch: nat)
    requires Inv(g, config) && g.nextEntity > 0
    ensures Advances(g, config, SpawnOutcome(g, config, c, k, epoch).0)
  {
    if CheckSpawn(g.connections, g.sessions, config, c, k, epoch).Some? {
      NoStep(g, config);
    } else {
      SpawnStep(g, config, c, k, epoch, g.connections[c].authenticated.value.id);
    }
  }

  method SpawnIn(g: Graph, config: CoreConfig, c: nat, k: SpaceKey, epoch: nat)
    returns (g': Graph, e: Option<CoreError>)
    ensures (g', e) == SpawnOutcome(g, config, c, k, epoch)
  {
    g', e := g, CheckSpawn(g.connections, g.sessions, config, c, k, epoch);
    if e.None? { g' := Spawn(g, c, k, g.connections[c].authenticated.value.id); }
  }

  method MoveIn(s: Session, e: nat, position: Position, cell: Option<CellKey>) returns (s': Session)
    requires e in s.entities && s.cellEntities == CellsOf(s.entityCells)
    ensures s' == Move(s, e, position, cell)
  {
    var ec, ce := Reindex(s.entityCells, s.cellEntities, e, cell);
    s' := s.(entities := s.entities[e := s.entities[e].(position := Some(position))],
             entityCells := ec, cellEntities := ce);
  }

  ghost predicate Places(g: Graph, sk: SessionKey, e: nat, position: Position, g': Graph) {
    && sk in g.sessions && e in g.sessions[sk].entities
    && exists cell ::
       CanMove(g.sessions[sk], e, position, cell) && g' == WithSession(g, sk, Move(g.sessions[sk], e, position, cell))
  }

  /** Whether the entity may take the position: the caller may write there and the space takes it. */
  ghost predicate MayPlace(g: Graph, c: nat, sk: SessionKey, e: nat, position: Position) {
    && CheckReposition(g.connections, g.sessions, c, sk, e).None?
    && var s := g.sessions[sk];
       && s.entities[e].space in s.spaces && s.spaces[s.entities[e].space].Validate().None?
       && PlaceEntity(s, e, position).Ok?
  }

  method PlaceIn(g: Graph, c: nat, sk: SessionKey, e: nat, position: Position)
    returns (g': Graph, refused: Option<CoreError>)
    requires Prepared(g)
    ensures refused.None? <==> MayPlace(g, c, sk, e, position)
    ensures if refused.None? then Places(g, sk, e, position, g') else g' == g
  {
    g', refused := g, CheckReposition(g.connections, g.sessions, c, sk, e);
    if refused.Some? { return; }
    HomeReady(g, sk, e);
    var cell := PlaceEntity(g.sessions[sk], e, position);
    if cell.Err? { return g, Some(cell.error); }
    var s := MoveIn(g.sessions[sk], e, position, cell.value);
    g' := WithSession(g, sk, s);
  }

  lemma HomeReady(g: Graph, sk: SessionKey, e: nat)
    requires Prepared(g) && sk in g.sessions && e in g.sessions[sk].entities
    ensures var s := g.sessions[sk];
            s.entities[e].space in s.spaces && s.spaces[s.entities[e].space].Validate().None?
              && s.cellEntities == CellsOf(s.entityCells)
  {
    assert Cascadable(g, sk);
  }

  lemma PlacesStep(g: Graph, config: CoreConfig, sk: SessionKey, e: nat, position: Position, g': Graph)
    requires Inv(g, config) && Places(g, sk, e, position, g')
    ensures Advances(g, config, g')
  {
    var cell :| CanMove(g.sessions[sk], e, position, cell)
      && g' == WithSession(g, sk, Move(g.sessions[sk], e, position, cell));
    MoveStep(g, config, sk, e, position, cell);
  }

  ghost function RemoveOutcome(g: Graph, c: nat, sk: SessionKey, e: nat): (Graph, Option<CoreError>) {
    var refused := CheckRemoveEntity(g.connections, g.sessions, c, sk, e);
    if refused.Some? then (g, refused) else (RemoveCascade(g, sk, {e}), None)
  }

  ghost predicate Removes(g: Graph, sk: SessionKey, e: nat, g': Graph) {
    g' == g || (sk in g.sessions && g' == RemoveCascade(g, sk, {e}))
  }

  lemma RemovesStep(g: Graph, config: CoreConfig, sk: SessionKey, e: nat, g': Graph)
    requires Inv(g, config) && Removes(g, sk, e, g')
    ensures Advances(g, config, g')
  {
    if g' == g { NoStep(g, config); } else { CascadeStep(g, config, sk, {e}); }
  }

  method RemoveIn(g: Graph, c: nat, sk: SessionKey, e: nat) returns (g': Graph, refused: Option<CoreError>)
    requires Prepared(g)
    ensures (g', refused) == RemoveOutcome(g, c, sk, e) && Removes(g, sk, e, g')
  {
    g', refused := g, CheckRemoveEntity(g.connections, g.sessions, c, sk, e);
    if refused.None? {
      assert Cascadable(g, sk);
      g' := RemoveEntitiesAndAnchoredSpaces(g, sk, {e});
    }
  }

  // ------------------------------------------------------------------ budgets

  method SetRateIn(g: Graph, ghost config: CoreConfig, sk: SessionKey, policy: Option<Policy>)
    returns (g': Graph, e: Option<CoreError>)
    requires Inv(g, config)
    ensures Advances(g, config, g')
    ensures e == CheckRate(g.sessions, sk, policy)
    ensures g' == if e.Some? then g else SetRateLimit(g, sk, policy)
  {
    g', e := g, CheckRate(g.sessions, sk, policy);
    if e.None? { g' := RateLimitIn(g, sk, policy); }
    RateOutcomeStep(g, config, sk, policy, g');
  }

  method RateLimitIn(g: Graph, sk: SessionKey, policy: Option<Policy>) returns (g': Graph)
    requires sk in g.sessions
    ensures g' == SetRateLimit(g, sk, policy)
  {
    var cs := ConfigureConnections(g.connections, sk, policy);
    g' := g.(connections := cs, sessions := g.sessions[sk := g.sessions[sk].(rateLimit := policy)]);
  }
}
