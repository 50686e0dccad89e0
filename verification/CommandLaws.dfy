/** When each command of the core goes through, said by identifiers, memberships, tables and the grant maps. */
module CommandLaws {
  import opened Model
  import opened Sequences
  import opened Queue
  import opened Spatial
  import opened RateLimit
  import opened SessionGraph
  import opened Commands
  import opened Checks
  import opened Outcomes
  import opened PublishPipeline
  import opened Delivery

  predicate Writable<K>(grants: map<K, Access>, k: K) { k in grants && !grants[k].ReadAccess? }

  /** The connection is known and has authenticated. */
  predicate Acts(cs: Connections, c: nat) { c > 0 && c in cs && cs[c].authenticated.Some? }

  predicate ReadsSession(grants: Grants, sk: SessionKey) {
    Readable(grants.namespaces, sk.namespace) && Readable(grants.sessions, sk)
  }

  predicate WritesSession(grants: Grants, sk: SessionKey) {
    Writable(grants.namespaces, sk.namespace) && Writable(grants.sessions, sk)
  }

  predicate Named(sk: SessionKey) { sk.namespace > 0 && sk.session > 0 }

  // ------------------------------------------------------------------ membership

  predicate Running(l: SessionLimiter, now: nat) {
    l.limiter.started.Some? && now < l.limiter.started.value + l.window
  }

  /** The budgets a join keeps: those of current memberships, and those that still matter. */
  function KeptBudgets(conn: Connection, now: nat): set<SessionKey> {
    set sk | sk in conn.sessionLimiters && (sk in conn.memberships || Running(conn.sessionLimiters[sk], now))
  }

  lemma PrunedKeeps(conn: Connection, now: nat)
    ensures Pruned(conn, now).Keys == KeptBudgets(conn, now)
    ensures forall sk | sk in KeptBudgets(conn, now) :: Pruned(conn, now)[sk] == conn.sessionLimiters[sk]
  {
  }

  lemma JoinAnswers(g: Graph, config: CoreConfig, c: nat, sk: SessionKey, now: nat)
    ensures JoinOutcome(g, config, c, sk, now).1.None?
            <==> && Acts(g.connections, c) && Named(sk) && sk in g.sessions
                 && ReadsSession(g.connections[c].authenticated.value.grants, sk)
                 && var conn := g.connections[c];
                    || sk in conn.memberships
                    || (&& |conn.memberships| != config.maxMemberships
                        && (sk in KeptBudgets(conn, now) || |KeptBudgets(conn, now)| < config.maxMemberships))
  {
    if c in g.connections {
      PrunedKeeps(g.connections[c], now);
      assert |Pruned(g.connections[c], now)| == |Pruned(g.connections[c], now).Keys|;
    }
  }

  /** A join adds the membership on both sides, keeps the budgets that still matter, and opens an unspent one
      when there is none. */
  lemma JoinEffects(g: Graph, config: CoreConfig, c: nat, sk: SessionKey, now: nat)
    requires JoinOutcome(g, config, c, sk, now).1.None?
    ensures var g' := JoinOutcome(g, config, c, sk, now).0;
            && c in g.connections && sk in g.sessions && c in g'.connections && sk in g'.sessions
            && g' == g.(connections := g.connections[c := g'.connections[c]],
                        sessions := g.sessions[sk := g'.sessions[sk]])
            && sk in g'.connections[c].memberships
            && (sk in g.connections[c].memberships ==> g' == g)
            && (sk !in g.connections[c].memberships ==>
                  && g'.sessions[sk] == g.sessions[sk].(members := g.sessions[sk].members + {c})
                  && Joined(g.connections[c], g.sessions[sk].rateLimit, sk, now, g'.connections[c]))
  {
    if sk in g.connections[c].memberships {
      SameConnection(g, c);
      assert g.sessions[sk := g.sessions[sk]] == g.sessions;
    } else {
      PrunedKeeps(g.connections[c], now);
    }
  }

  ghost predicate Joined(before: Connection, policy: Option<Policy>, sk: SessionKey, now: nat, after: Connection) {
    && after == before.(memberships := before.memberships + {sk}, sessionLimiters := after.sessionLimiters)
    && after.sessionLimiters.Keys == KeptBudgets(before, now) + {sk}
    && (forall k | k in KeptBudgets(before, now) :: after.sessionLimiters[k] == before.sessionLimiters[k])
    && (sk !in KeptBudgets(before, now) ==>
          && after.sessionLimiters[sk].limiter.started.None?
          && (policy.Some? <==> after.sessionLimiters[sk].retainAfterLeave)
          && after.sessionLimiters[sk].window == if policy.Some? then policy.value.window else 1_000_000_000)
  }

  lemma LeaveAnswers(g: Graph, c: nat, sk: SessionKey)
    requires MembershipsExistIn(g, c)
    ensures LeaveOutcome(g, c, sk).1.None?
            <==> c > 0 && Named(sk) && c in g.connections && sk in g.connections[c].memberships
  {
  }

  // ------------------------------------------------------------------ subscriptions

  lemma PurgedHolds(l: Lanes, drop: OutboundMessage -> bool)
    ensures forall m :: l.Purge(drop).Holds(m) <==> l.Holds(m) && !drop(m)
  {
    FilterIsSelection(Not(drop), l.critical);
    FilterIsSelection(Not(drop), l.latest);
    FilterIsSelection(Not(drop), l.bestEffort);
  }

  lemma SubscribeAnswers(cs: Connections, ss: Sessions, config: CoreConfig, c: nat, k: SpaceKey)
    ensures CheckSubscribe(cs, ss, config, c, k).None?
            <==> && Acts(cs, c) && Named(k.session) && k.space > 0
                 && ReadsSession(cs[c].authenticated.value.grants, k.session)
                 && Readable(cs[c].authenticated.value.grants.spaces, k)
                 && k.session in cs[c].memberships
                 && (|| k in cs[c].subscriptions
                     || (&& |cs[c].subscriptions| != config.maxSubscriptions
                         && k.session in ss && k.space in ss[k.session].spaces))
  {
  }

  /** Both sides know of the subscription, and nothing else changes. */
  lemma SubscribeEffects(g: Graph, c: nat, k: SpaceKey)
    requires c in g.connections && k.session in g.sessions && k.space in g.sessions[k.session].subscribers
    ensures var g', sk := Subscribe(g, c, k), k.session;
            && c in g'.connections && sk in g'.sessions && k.space in g'.sessions[sk].subscribers
            && g' == g.(connections := g.connections[c := g'.connections[c]],
                        sessions := g.sessions[sk := g'.sessions[sk]])
            && g'.connections[c] == g.connections[c].(subscriptions := g'.connections[c].subscriptions)
            && g'.sessions[sk] == g.sessions[sk].(subscribers := g'.sessions[sk].subscribers)
            && (forall j :: j in g'.connections[c].subscriptions <==> j == k || j in g.connections[c].subscriptions)
            && (forall d :: d in g'.sessions[sk].subscribers[k.space]
                            <==> d == c || d in g.sessions[sk].subscribers[k.space])
            && g'.sessions[sk].subscribers.Keys == g.sessions[sk].subscribers.Keys
            && forall sp | sp in g.sessions[sk].subscribers && sp != k.space ::
                 g'.sessions[sk].subscribers[sp] == g.sessions[sk].subscribers[sp]
  {
  }

  /** The subscription goes on both sides, the queue loses exactly the messages of the space, and nothing else
      changes. */
  lemma UnsubscribeEffects(g: Graph, c: nat, k: SpaceKey)
    requires c in g.connections && k.session in g.sessions && k.space in g.sessions[k.session].subscribers
    ensures var g', sk := Unsubscribe(g, c, k), k.session;
            && c in g'.connections && sk in g'.sessions && k.space in g'.sessions[sk].subscribers
            && g' == g.(connections := g.connections[c := g'.connections[c]],
                        sessions := g.sessions[sk := g'.sessions[sk]])
            && g'.connections[c] == g.connections[c].(subscriptions := g'.connections[c].subscriptions,
                                                      outbound := g'.connections[c].outbound)
            && g'.sessions[sk] == g.sessions[sk].(subscribers := g'.sessions[sk].subscribers)
            && (forall j :: j in g'.connections[c].subscriptions <==> j != k && j in g.connections[c].subscriptions)
            && (forall d :: d in g'.sessions[sk].subscribers[k.space]
                            <==> d != c && d in g.sessions[sk].subscribers[k.space])
            && g'.sessions[sk].subscribers.Keys == g.sessions[sk].subscribers.Keys
            && forall sp | sp in g.sessions[sk].subscribers && sp != k.space ::
                 g'.sessions[sk].subscribers[sp] == g.sessions[sk].subscribers[sp]
    ensures forall m :: Unsubscribe(g, c, k).connections[c].outbound.Holds(m)
                        <==> g.connections[c].outbound.Holds(m) && !(m.Session() == k.session && m.space == k.space)
  {
    PurgedHolds(g.connections[c].outbound, InSpace(k.session, k.space));
  }

  // ------------------------------------------------------------------ spaces

  /** What a space descriptor must fulfil. */
  predicate WellFormed(d: SpaceDescriptor) {
    && d.id > 0 && d.epoch > 0
    && (d.parent.Some? ==>
          d.parent.value.parentSpace > 0 && d.parent.value.anchorEntity > 0 && d.parent.value.parentSpace != d.id)
    && (d.frame.Frame2D? || d.frame.Frame3D? ==> 0.0 < d.frame.metersPerUnit)
    && (d.bounds.Some? ==>
          d.frame.Frame3D? && var b := d.bounds.value; b.minX < b.maxX && b.minY < b.maxY && b.minZ < b.maxZ)
    && (d.routing.Grid2D? ==> d.frame.Frame2D? && 0.0 < d.routing.cellSize && 0.0 < d.routing.interestRadius)
    && (d.routing.Grid3D? ==> d.frame.Frame3D? && 0.0 < d.routing.cellSize && 0.0 < d.routing.interestRadius)
  }

  lemma ValidatesExactly(d: SpaceDescriptor)
    ensures d.Validate().None? <==> WellFormed(d)
  {
  }

  /** A known space never comes back at an epoch it has had; an unknown one needs room in the history. */
  lemma InstallAnswers(ss: Sessions, config: CoreConfig, sk: SessionKey, d: SpaceDescriptor)
    ensures CheckInstall(ss, config, sk, d).None?
            <==> && Named(sk) && WellFormed(d) && sk in ss
                 && d.id !in ss[sk].spaces && |ss[sk].spaces| != config.maxSpaces
                 && (if d.id in ss[sk].tombstones then ss[sk].tombstones[d.id] < d.epoch
                     else |ss[sk].spaces| + |ss[sk].tombstones| != config.maxTombstones)
                 && (d.parent.Some? ==>
                       var p := d.parent.value;
                       && p.parentSpace in ss[sk].spaces && p.anchorEntity in ss[sk].entities
                       && ss[sk].entities[p.anchorEntity].space == p.parentSpace)
  {
    ValidatesExactly(d);
  }

  lemma InstallEffects(s: Session, d: SpaceDescriptor)
    requires d.id !in s.spaces && s.subscribers.Keys == s.spaces.Keys
    ensures var s' := InstallSpace(s, d);
            && s' == s.(spaces := s'.spaces, subscribers := s'.subscribers, tombstones := s'.tombstones)
            && s'.spaces.Keys == s'.subscribers.Keys == s.spaces.Keys + {d.id}
            && s'.tombstones.Keys == s.tombstones.Keys - {d.id}
            && s'.spaces[d.id] == d && s'.subscribers[d.id] == {}
            && (forall sp | sp in s.spaces :: s'.spaces[sp] == s.spaces[sp] && s'.subscribers[sp] == s.subscribers[sp])
            && forall sp | sp in s'.tombstones :: s'.tombstones[sp] == s.tombstones[sp]
  {
  }

  lemma AdvanceAnswers(ss: Sessions, sk: SessionKey, space: nat, epoch: nat)
    ensures CheckAdvance(ss, sk, space, epoch).None?
            <==> Named(sk) && space > 0 && epoch > 0 && sk in ss && space in ss[sk].spaces
                 && ss[sk].spaces[space].epoch < epoch
  {
  }

  // ------------------------------------------------------------------ entities

  predicate WritesSpace(cs: Connections, c: nat, k: SpaceKey) {
    && Acts(cs, c) && Named(k.session) && k.space > 0
    && WritesSession(cs[c].authenticated.value.grants, k.session)
    && Writable(cs[c].authenticated.value.grants.spaces, k)
    && k.session in cs[c].memberships && k in cs[c].subscriptions
  }

  lemma SpawnAnswers(cs: Connections, ss: Sessions, config: CoreConfig, c: nat, k: SpaceKey, epoch: nat)
    ensures CheckSpawn(cs, ss, config, c, k, epoch).None?
            <==> && WritesSpace(cs, c, k) && epoch > 0 && cs[c].ownedEntities != config.maxOwnedEntities
                 && k.session in ss && k.space in ss[k.session].spaces && ss[k.session].spaces[k.space].epoch == epoch
                 && |ss[k.session].entities| != config.maxEntities
  {
  }

  /** One new entity of the caller, nowhere yet, under the next identifier. */
  lemma SpawnEffects(g: Graph, config: CoreConfig, c: nat, k: SpaceKey, epoch: nat)
    requires SpawnOutcome(g, config, c, k, epoch).1.None?
    ensures var (g', sk, id) := (SpawnOutcome(g, config, c, k, epoch).0, k.session, g.nextEntity);
            && c in g.connections && sk in g.sessions && c in g'.connections && sk in g'.sessions
            && g.connections[c].authenticated.Some?
            && g' == g.(connections := g.connections[c := g'.connections[c]],
                        sessions := g.sessions[sk := g'.sessions[sk]], nextEntity := g'.nextEntity)
            && g'.nextEntity == id + 1
            && g'.connections[c] == g.connections[c].(ownedEntities := g.connections[c].ownedEntities + 1)
            && g'.sessions[sk] == g.sessions[sk].(entities := g'.sessions[sk].entities)
            && g'.sessions[sk].entities.Keys == g.sessions[sk].entities.Keys + {id}
            && (forall e | e in g.sessions[sk].entities && e != id ::
                g'.sessions[sk].entities[e] == g.sessions[sk].entities[e])
            && var r := g'.sessions[sk].entities[id];
               && r.id == id && r.owner == c && r.principal == g.connections[c].authenticated.value.id
               && r.space == k.space && r.epoch == epoch && r.position.None?
  {
  }

  /** The position is of the frame's dimension, within the bounds if there are any. */
  predicate Fits(d: SpaceDescriptor, p: Position) {
    || (d.frame.Frame2D? && p.Pos2D?)
    || (d.frame.Frame3D? && p.Pos3D?
        && (d.bounds.Some? ==>
              var b := d.bounds.value;
              b.minX <= p.x && p.x <= b.maxX && b.minY <= p.y && p.y <= b.maxY && b.minZ <= p.z && p.z <= b.maxZ))
  }

  lemma PositionFitsExactly(d: SpaceDescriptor, p: Position)
    ensures d.ValidatePosition(p).None? <==> Fits(d, p)
  {
  }

  predicate Owns(ss: Sessions, c: nat, sk: SessionKey, e: nat) {
    sk in ss && e in ss[sk].entities && ss[sk].entities[e].owner == c
  }

  lemma RepositionAnswers(cs: Connections, ss: Sessions, c: nat, sk: SessionKey, e: nat)
    requires forall k, i | k in ss && i in ss[k].entities :: ss[k].entities[i].space > 0
    ensures CheckReposition(cs, ss, c, sk, e).None?
            <==> && Owns(ss, c, sk, e) && e > 0 && WritesSpace(cs, c, SpaceKey(sk, ss[sk].entities[e].space))
  {
  }

  lemma PlaceAnswers(s: Session, e: nat, position: Position)
    requires e in s.entities && s.entities[e].space in s.spaces && s.spaces[s.entities[e].space].Validate().None?
    ensures var d := s.spaces[s.entities[e].space];
            && (PlaceEntity(s, e, position).Ok? <==> Fits(d, position) && CellFor(position, d, s.entities[e].epoch).Ok?)
            && (PlaceEntity(s, e, position).Ok?
                ==> PlaceEntity(s, e, position).value == CellFor(position, d, s.entities[e].epoch).value)
  {
    PositionFitsExactly(s.spaces[s.entities[e].space], position);
  }

  /** Only the position of this entity and its place in the index change. */
  lemma PlaceEffects(g: Graph, sk: SessionKey, e: nat, position: Position, g': Graph)
    requires Places(g, sk, e, position, g')
    ensures sk in g'.sessions && g' == g.(sessions := g.sessions[sk := g'.sessions[sk]])
    ensures var s, s' := g.sessions[sk], g'.sessions[sk];
            && s' == s.(entities := s'.entities, entityCells := s'.entityCells, cellEntities := s'.cellEntities)
            && s'.entities.Keys == s.entities.Keys && s'.entities[e].position == Some(position)
            && s'.entities[e] == s.entities[e].(position := Some(position))
            && forall i | i in s.entities && i != e :: s'.entities[i] == s.entities[i]
  {
  }

  lemma RemoveAnswers(cs: Connections, ss: Sessions, c: nat, sk: SessionKey, e: nat)
    ensures CheckRemoveEntity(cs, ss, c, sk, e).None?
            <==> Acts(cs, c) && Named(sk) && e > 0 && sk in cs[c].memberships && Owns(ss, c, sk, e)
  {
  }

  lemma TransitionAnswers(cs: Connections, ss: Sessions, c: nat, sk: SessionKey, e: nat,
                          source: nat, sourceEpoch: nat, destination: nat, destinationEpoch: nat)
    ensures CheckTransition(cs, ss, c, sk, e, source, sourceEpoch, destination, destinationEpoch).None?
            <==> && WritesSpace(cs, c, SpaceKey(sk, source)) && WritesSpace(cs, c, SpaceKey(sk, destination))
                 && sourceEpoch > 0 && destinationEpoch > 0 && e > 0 && Owns(ss, c, sk, e)
                 && ss[sk].entities[e].space == source && ss[sk].entities[e].epoch == sourceEpoch
                 && source in ss[sk].spaces && ss[sk].spaces[source].epoch == sourceEpoch
                 && destination in ss[sk].spaces && ss[sk].spaces[destination].epoch == destinationEpoch
  {
  }

  /** Something that concerns the entity where it was. */
  predicate Concerns(r: EntityRecord, e: nat, space: nat, epoch: nat, entity: Option<nat>) {
    entity == Some(e) && space == r.space && epoch == r.epoch
  }

  /** The entity is in its new space, at no position and in no cell. Exactly the values, sequences and queued
      messages that concern it where it was are gone; everything else stays. */
  lemma TransitionEffects(g: Graph, sk: SessionKey, e: nat, space: nat, epoch: nat)
    requires sk in g.sessions && e in g.sessions[sk].entities
    ensures var g' := Transition(g, sk, e, space, epoch);
            && g'.sessions.Keys == g.sessions.Keys && g'.connections.Keys == g.connections.Keys
            && (forall k | k in g.sessions && k != sk :: g'.sessions[k] == g.sessions[k])
            && var s, s', r := g.sessions[sk], g'.sessions[sk], g.sessions[sk].entities[e];
               && s' == s.(entities := s'.entities, entityCells := s'.entityCells, cellEntities := s'.cellEntities,
                           state := s'.state, stateBytes := s'.stateBytes, sequences := s'.sequences)
               && s'.entities == s.entities[e := r.(space := space, epoch := epoch, position := None)]
               && e !in s'.entityCells
                  && (forall i | i in s.entityCells && i != e ::
                      i in s'.entityCells && s'.entityCells[i] == s.entityCells[i])
               && (forall k :: k in s'.state <==> k in s.state && !Concerns(r, e, k.space, k.epoch, k.entity))
               && (forall k | k in s'.state :: s'.state[k] == s.state[k])
               && (forall k :: k in s'.sequences <==> k in s.sequences && !Concerns(r, e, k.space, k.epoch, k.entity))
               && (forall k | k in s'.sequences :: s'.sequences[k] == s.sequences[k])
  {
  }

  lemma TransitionQueues(g: Graph, sk: SessionKey, e: nat, space: nat, epoch: nat, c: nat)
    requires sk in g.sessions && e in g.sessions[sk].entities && c in g.connections
    ensures var (g', r) := (Transition(g, sk, e, space, epoch), g.sessions[sk].entities[e]);
            var conn, conn' := g.connections[c], g'.connections[c];
            && conn' == conn.(outbound := conn'.outbound)
            && forall m :: conn'.outbound.Holds(m)
                           <==> conn.outbound.Holds(m)
                                && !(m.Session() == sk && Concerns(r, e, m.space, m.epoch, m.entity))
  {
    var r := g.sessions[sk].entities[e];
    PurgedHolds(g.connections[c].outbound, OfEntity(sk, r.space, r.epoch, e));
  }

  // ------------------------------------------------------------------ publishing

  /** Publishing takes the right to write session, space and channel, membership and a subscription to the space. */
  lemma PublishAnswers(g: Graph, c: nat, m: OutboundMessage)
    ensures CheckPublishAccess(g, c, m).None?
            <==> && WritesSpace(g.connections, c, m.Space()) && m.Session() in g.sessions
                 && Writable(g.connections[c].authenticated.value.grants.channels, ChannelScope(m.Session(), m.channel))
                 && m.Session() in g.connections[c].sessionLimiters
                 && m.epoch > 0 && m.channel > 0 && m.entity != Some(0)
                 && (m.coalesceKey.Some? ==> m.coalesceKey.value.channel > 0 && m.coalesceKey.value.entity != Some(0))
  {
  }

  /** A position goes with a publish if it is a spatial one that the publisher's own entity may take. */
  lemma PlacePublishedAnswers(s: Session, c: nat, m: OutboundMessage)
    requires Placeable(s)
    ensures PlacePublished(s, c, m).Ok?
            <==> m.routingPosition.None?
                 || (&& m.routingPosition.value.Pos3D? && m.entity.Some? && m.entity.value in s.entities
                     && var (r, p) := (s.entities[m.entity.value], m.routingPosition.value);
                        r.owner == c && Fits(s.spaces[r.space], p) && CellFor(p, s.spaces[r.space], r.epoch).Ok?)
  {
    if m.entity.Some? && m.entity.value in s.entities && m.routingPosition.Some? {
      PlaceAnswers(s, m.entity.value, m.routingPosition.value);
    }
  }
}
