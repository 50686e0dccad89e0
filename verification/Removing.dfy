/** The effect of removing a closed set of entities and spaces from the session graph. */
module Removing {
  import opened Model
  import opened Sequences
  import opened Queue
  import opened Cache
  import opened SessionGraph
  import opened Cascade

  predicate Survives(r: Removal, space: nat, entity: Option<nat>) {
    space !in r.spaces && (entity.Some? ==> entity.value !in r.entities)
  }

  ghost function RemoveFromSession(s: Session, r: Removal): Session {
    var state := map k | k in s.state && Survives(r, k.space, k.entity) :: s.state[k];
    s.(spaces := s.spaces - r.spaces,
       tombstones := s.tombstones + (map sp | sp in s.spaces && sp in r.spaces :: s.spaces[sp].epoch),
       subscribers := s.subscribers - r.spaces,
       entities := s.entities - r.entities,
       entityCells := s.entityCells - r.entities,
       cellEntities := CellsOf(s.entityCells - r.entities),
       state := state,
       stateBytes := ByteLen(state),
       sequences := (map k | k in s.sequences && Survives(r, k.space, k.entity) :: s.sequences[k]))
  }

  /** Messages of the session that name something removed. */
  function GoneMessage(sk: SessionKey, r: Removal): OutboundMessage -> bool {
    (m: OutboundMessage) => m.Session() == sk && !Survives(r, m.space, m.entity)
  }

  ghost function Lost(s: Session, r: Removal, c: nat): set<nat> {
    set e | e in s.entities && e in r.entities && s.entities[e].owner == c
  }

  function Saturating(a: nat, b: nat): nat { if a >= b then a - b else 0 }

  ghost function RemoveFromConnection(conn: Connection, lost: nat, sk: SessionKey, r: Removal): Connection {
    conn.(subscriptions := (set k | k in conn.subscriptions && !(k.session == sk && k.space in r.spaces)),
          ownedEntities := Saturating(conn.ownedEntities, lost),
          outbound := conn.outbound.Purge(GoneMessage(sk, r)))
  }

  ghost function Remove(g: Graph, sk: SessionKey, r: Removal): Graph
    requires sk in g.sessions
  {
    g.(connections := (map c | c in g.connections ::
                         RemoveFromConnection(g.connections[c], |Lost(g.sessions[sk], r, c)|, sk, r)),
       sessions := g.sessions[sk := RemoveFromSession(g.sessions[sk], r)])
  }

  /** Removing the given entities with everything that depends on them. */
  ghost function RemoveCascade(g: Graph, sk: SessionKey, entities: set<nat>): Graph
    requires sk in g.sessions
  {
    Remove(g, sk, Closure(g.sessions[sk], Removal(entities, {})))
  }

  // ------------------------------------------------------------------ one session

  lemma RemoveStructure(s: Session, r: Removal)
    requires SpacesOk(s) && EntitiesOk(s) && PositionsOk(s) && Closed(s, r)
    ensures var s' := RemoveFromSession(s, r); SpacesOk(s') && EntitiesOk(s') && PositionsOk(s')
  {
  }

  lemma RemoveCells(s: Session, r: Removal)
    requires SpacesOk(s) && EntitiesOk(s) && CellsOk(s) && Closed(s, r)
    ensures CellsOk(RemoveFromSession(s, r))
  {
    var s' := RemoveFromSession(s, r);
    forall e
      ensures ExpectedCell(s', e) == if e in r.entities then None else ExpectedCell(s, e)
    {
    }
  }

  lemma RemoveKeys(s: Session, r: Removal)
    requires KeysOk(s)
    ensures KeysOk(RemoveFromSession(s, r))
  {
  }

  lemma TableKeys(s: Session, r: Removal)
    ensures var s' := RemoveFromSession(s, r);
            && s'.spaces.Keys == s.spaces.Keys - r.spaces
            && s'.tombstones.Keys == s.tombstones.Keys + s.spaces.Keys * r.spaces
            && s'.subscribers.Keys == s.subscribers.Keys - r.spaces
  {
  }

  lemma RemoveTables(s: Session, config: CoreConfig, r: Removal)
    requires SpaceTablesOk(s, config)
    ensures SpaceTablesOk(RemoveFromSession(s, r), config)
  {
    TableKeys(s, r);
    MoveSizes(s.spaces.Keys, s.tombstones.Keys, r.spaces);
  }

  /** Moving elements between disjoint sets keeps the total. */
  lemma MoveSizes(a: set<nat>, b: set<nat>, moved: set<nat>)
    requires a !! b
    ensures |a - moved| + |b + a * moved| == |a| + |b| && |a - moved| <= |a|
  {
    assert a == (a - moved) + a * moved;
    assert |b + a * moved| == |b| + |a * moved|;
  }

  lemma SubmapAcyclic(spaces: map<nat, SpaceDescriptor>, spaces': map<nat, SpaceDescriptor>)
    requires Acyclic(spaces) && spaces'.Keys <= spaces.Keys
    requires forall sp | sp in spaces' :: spaces'[sp].parent == spaces[sp].parent
    ensures Acyclic(spaces')
  {
    var rank :| Ranks(rank, spaces);
    assert Ranks(rank, spaces');
  }

  lemma {:induction false} ByteLenSubset(s: Store, s': Store)
    requires s'.Keys <= s.Keys && forall k | k in s' :: s'[k] == s[k]
    ensures ByteLen(s') <= ByteLen(s) && |s'| <= |s|
    decreases |s|
  {
    SubsetSize(s'.Keys, s.Keys);
    if s.Keys != {} {
      var k :| k in s.Keys;
      ByteLenRemove(s, k);
      assert (s - {k}).Keys == s.Keys - {k};
      ByteLenSubset(s - {k}, s' - {k});
      if k in s' { ByteLenRemove(s', k); } else { assert s' - {k} == s'; }
    } else {
      assert s' == map[];
    }
  }

  lemma RemoveSizes(s: Session, config: CoreConfig, r: Removal)
    requires SessionOk(s, config)
    ensures var s' := RemoveFromSession(s, r);
            && |s'.entities| <= |s.entities| && |s'.sequences| <= |s.sequences|
            && |s'.state| <= |s.state| && s'.stateBytes <= s.stateBytes
  {
    var s' := RemoveFromSession(s, r);
    SubsetSize(s'.entities.Keys, s.entities.Keys);
    SubsetSize(s'.sequences.Keys, s.sequences.Keys);
    ByteLenSubset(s.state, s'.state);
  }

  lemma RemoveSessionOk(s: Session, config: CoreConfig, r: Removal)
    requires SessionOk(s, config) && Closed(s, r)
    ensures SessionOk(RemoveFromSession(s, r), config)
  {
    RemoveStructure(s, r);
    RemoveCells(s, r);
    RemoveKeys(s, r);
    RemoveTables(s, config, r);
    SubmapAcyclic(s.spaces, RemoveFromSession(s, r).spaces);
    RemoveSizes(s, config, r);
  }

  // ------------------------------------------------------------------ the whole graph

  lemma RemoveMembers(g: Graph, sk: SessionKey, r: Removal)
    requires sk in g.sessions && MembersKnown(g)
    ensures MembersKnown(Remove(g, sk, r))
  {
  }

  lemma RemoveMemberships(g: Graph, sk: SessionKey, r: Removal)
    requires sk in g.sessions && MembershipsKnown(g)
    ensures MembershipsKnown(Remove(g, sk, r))
  {
  }

  lemma RemoveSubscriptions(g: Graph, sk: SessionKey, r: Removal)
    requires sk in g.sessions && SubscriptionsKnown(g)
    ensures SubscriptionsKnown(Remove(g, sk, r))
  {
  }

  lemma RemoveSubscribers(g: Graph, sk: SessionKey, r: Removal)
    requires sk in g.sessions && SubscribersKnown(g)
    ensures SubscribersKnown(Remove(g, sk, r))
  {
  }

  lemma RemoveOwners(g: Graph, sk: SessionKey, r: Removal)
    requires sk in g.sessions && OwnersOk(g)
    ensures OwnersOk(Remove(g, sk, r))
  {
  }

  lemma {:induction false} PairCount(sk: SessionKey, es: set<nat>, pairs: set<(SessionKey, nat)>)
    requires pairs == set e | e in es :: (sk, e)
    ensures |pairs| == |es|
  {
    if es != {} {
      var e :| e in es;
      PairCount(sk, es - {e}, pairs - {(sk, e)});
    }
  }

  lemma LostPairs(g: Graph, sk: SessionKey, r: Removal, c: nat)
    requires sk in g.sessions
    ensures |Owned(Remove(g, sk, r), c)| == |Owned(g, c)| - |Lost(g.sessions[sk], r, c)|
  {
    var lost := Lost(g.sessions[sk], r, c);
    var pairs := set e | e in lost :: (sk, e);
    PairCount(sk, lost, pairs);
    var after := Owned(Remove(g, sk, r), c);
    assert pairs <= Owned(g, c);
    assert after == Owned(g, c) - pairs;
  }

  /** Every counter is lowered by exactly what its connection lost. */
  lemma RemoveCounts(g: Graph, sk: SessionKey, r: Removal)
    requires sk in g.sessions && CountsOk(g)
    ensures CountsOk(Remove(g, sk, r))
  {
    forall c | c in g.connections
      ensures Remove(g, sk, r).connections[c].ownedEntities == |Owned(Remove(g, sk, r), c)|
    {
      LostPairs(g, sk, r, c);
    }
  }

  lemma NoSaturation(g: Graph, sk: SessionKey, r: Removal, c: nat)
    requires sk in g.sessions && CountsOk(g) && c in g.connections
    ensures |Lost(g.sessions[sk], r, c)| <= g.connections[c].ownedEntities
  {
    LostPairs(g, sk, r, c);
  }

  lemma RemoveQueues(g: Graph, config: CoreConfig, sk: SessionKey, r: Removal)
    requires sk in g.sessions && QueuesOk(g, config)
    ensures QueuesOk(Remove(g, sk, r), config)
  {
    var g' := Remove(g, sk, r);
    forall c | c in g'.connections
      ensures g'.connections[c].outbound.Bounded(config.queue)
      ensures forall m | g'.connections[c].outbound.Holds(m) :: Deliverable(g', c, m)
    {
      KeepBounded(g.connections[c].outbound, config.queue, Not(GoneMessage(sk, r)));
      forall m | g'.connections[c].outbound.Holds(m) ensures Deliverable(g', c, m) {
        assert Deliverable(g, c, m) && !GoneMessage(sk, r)(m);
      }
    }
  }

  lemma RemoveBudgets(g: Graph, config: CoreConfig, sk: SessionKey, r: Removal)
    requires sk in g.sessions && BudgetsOk(g, config)
    ensures BudgetsOk(Remove(g, sk, r), config)
  {
    var g' := Remove(g, sk, r);
    forall c | c in g'.connections
      ensures |g'.connections[c].subscriptions| <= |g.connections[c].subscriptions|
    {
      SubsetSize(g'.connections[c].subscriptions, g.connections[c].subscriptions);
    }
  }

  lemma RemoveSessions(g: Graph, config: CoreConfig, sk: SessionKey, r: Removal)
    requires SessionsOk(g, config) && sk in g.sessions && Closed(g.sessions[sk], r)
    ensures SessionsOk(Remove(g, sk, r), config)
  {
    RemoveSessionOk(g.sessions[sk], config, r);
    SessionsReplaced(g, Remove(g, sk, r), config, sk, RemoveFromSession(g.sessions[sk], r));
  }

  /** Removing a closed set keeps the whole graph consistent: nothing that stays names anything that
      went. */
  lemma RemoveKeepsInv(g: Graph, config: CoreConfig, sk: SessionKey, r: Removal)
    requires Inv(g, config) && sk in g.sessions && Closed(g.sessions[sk], r)
    ensures Inv(Remove(g, sk, r), config)
  {
    RemoveSessions(g, config, sk, r);
    RemoveMembers(g, sk, r);
    RemoveMemberships(g, sk, r);
    RemoveSubscriptions(g, sk, r);
    RemoveSubscribers(g, sk, r);
    RemoveOwners(g, sk, r);
    RemoveCounts(g, sk, r);
    RemoveQueues(g, config, sk, r);
    RemoveBudgets(g, config, sk, r);
  }
}
