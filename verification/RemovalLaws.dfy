/** What a cascade, a departure and an epoch advance take, and that they take nothing else: exactly what would
    otherwise name a space or an entity that is gone. */
module RemovalLaws {
  import opened Model
  import opened RateLimit
  import opened SessionGraph
  import opened Cascade
  import opened Removing
  import opened Commands
  import opened Anchors
  import opened Outcomes
  import opened RatePolicy
  import opened CommandLaws

  /** The space is installed, and so is the entity if one is named. */
  ghost predicate Names(s: Session, space: nat, entity: Option<nat>) {
    space in s.spaces && (entity.Some? ==> entity.value in s.entities)
  }

  ghost predicate Cut(s: Session, s': Session) {
    && s' == s.(spaces := s'.spaces, tombstones := s'.tombstones, subscribers := s'.subscribers,
                entities := s'.entities,
                entityCells := s'.entityCells, cellEntities := s'.cellEntities, state := s'.state,
                stateBytes := s'.stateBytes, sequences := s'.sequences)
    && s'.spaces.Keys <= s.spaces.Keys && s'.entities.Keys <= s.entities.Keys
    && (forall sp | sp in s'.spaces :: s'.spaces[sp] == s.spaces[sp])
    && (forall e | e in s'.entities :: s'.entities[e] == s.entities[e])
    && s'.subscribers.Keys == s'.spaces.Keys
    && (forall sp | sp in s'.subscribers :: sp in s.subscribers && s'.subscribers[sp] == s.subscribers[sp])
    && (forall sp | sp in s.tombstones :: sp in s'.tombstones && s'.tombstones[sp] == s.tombstones[sp])
    && (forall sp | sp in s.spaces && sp !in s'.spaces ::
        sp in s'.tombstones && s'.tombstones[sp] == s.spaces[sp].epoch)
    && s'.tombstones.Keys == s.tombstones.Keys + (s.spaces.Keys - s'.spaces.Keys)
  }

  ghost predicate KeysCut(s: Session, s': Session) {
    && (forall k :: k in s'.state <==> k in s.state && Names(s', k.space, k.entity))
    && (forall k | k in s'.state :: s'.state[k] == s.state[k])
    && (forall k :: k in s'.sequences <==> k in s.sequences && Names(s', k.space, k.entity))
    && (forall k | k in s'.sequences :: s'.sequences[k] == s.sequences[k])
  }

  ghost predicate ConnectionCut(sk: SessionKey, s': Session, conn: Connection, conn': Connection) {
    && conn' == conn.(subscriptions := conn'.subscriptions, ownedEntities := conn'.ownedEntities,
                      outbound := conn'.outbound)
    && (forall k :: k in conn'.subscriptions
                    <==> k in conn.subscriptions && (k.session == sk ==> k.space in s'.spaces))
    && forall m :: conn'.outbound.Holds(m)
                   <==> conn.outbound.Holds(m) && (m.Session() == sk ==> Names(s', m.space, m.entity))
  }

  lemma RemovalCuts(s: Session, r: Removal)
    requires s.subscribers.Keys == s.spaces.Keys && s.tombstones.Keys !! s.spaces.Keys
    ensures Cut(s, RemoveFromSession(s, r))
  {
    TableKeys(s, r);
  }

  lemma RemovalCutsKeys(s: Session, r: Removal)
    requires KeysOk(s)
    ensures KeysCut(s, RemoveFromSession(s, r))
  {
  }

  lemma RemovalCutsConnection(g: Graph, sk: SessionKey, r: Removal, c: nat)
    requires sk in g.sessions && c in g.connections && SubscriptionsKnown(g)
             && g.sessions[sk].subscribers.Keys == g.sessions[sk].spaces.Keys
    requires forall m | g.connections[c].outbound.Holds(m) :: Deliverable(g, c, m)
    ensures ConnectionCut(sk, Remove(g, sk, r).sessions[sk], g.connections[c], Remove(g, sk, r).connections[c])
  {
    PurgedHolds(g.connections[c].outbound, GoneMessage(sk, r));
    var s' := Remove(g, sk, r).sessions[sk];
    forall m | g.connections[c].outbound.Holds(m) && m.Session() == sk
      ensures GoneMessage(sk, r)(m) <==> !Names(s', m.space, m.entity)
    {
      assert Deliverable(g, c, m);
    }
  }

  /** What is queued and subscribed to is known in the session. */
  ghost predicate Ready(g: Graph, sk: SessionKey) {
    && sk in g.sessions && KeysOk(g.sessions[sk]) && SubscriptionsKnown(g)
    && g.sessions[sk].subscribers.Keys == g.sessions[sk].spaces.Keys
    && g.sessions[sk].tombstones.Keys !! g.sessions[sk].spaces.Keys
    && forall c, m | c in g.connections && g.connections[c].outbound.Holds(m) :: Deliverable(g, c, m)
  }

  lemma ReadyOf(g: Graph, config: CoreConfig, sk: SessionKey)
    requires Inv(g, config) && sk in g.sessions
    ensures Ready(g, sk)
  {
    assert SessionOk(g.sessions[sk], config);
  }

  /** A removal takes exactly what would otherwise dangle, in the session and from every connection. */
  lemma RemovalLeavesRest(g: Graph, sk: SessionKey, r: Removal)
    requires Ready(g, sk)
    ensures var g' := Remove(g, sk, r);
            && g'.sessions == g.sessions[sk := g'.sessions[sk]] && g'.connections.Keys == g.connections.Keys
            && g'.nextConnection == g.nextConnection && g'.nextEntity == g.nextEntity
            && Cut(g.sessions[sk], g'.sessions[sk]) && KeysCut(g.sessions[sk], g'.sessions[sk])
            && forall c | c in g.connections :: ConnectionCut(sk, g'.sessions[sk], g.connections[c], g'.connections[c])
  {
    RemovalCuts(g.sessions[sk], r);
    RemovalCutsKeys(g.sessions[sk], r);
    forall c | c in g.connections
      ensures ConnectionCut(sk, Remove(g, sk, r).sessions[sk], g.connections[c], Remove(g, sk, r).connections[c])
    {
      RemovalCutsConnection(g, sk, r, c);
    }
  }

  // ------------------------------------------------------------------ leaving

  /** The connection's own side of leaving: one membership, its subscriptions and its messages go; a budget stays
      exactly when its session has had a policy. */
  lemma UnlinkedConnection(g: Graph, c: nat, sk: SessionKey)
    requires c in g.connections && sk in g.sessions
    ensures var conn, conn' := g.connections[c], Unlink(g, c, sk).connections[c];
            && conn' == conn.(memberships := conn.memberships - {sk}, sessionLimiters := conn'.sessionLimiters,
                              subscriptions := conn'.subscriptions, outbound := conn'.outbound)
            && (forall k :: k in conn'.sessionLimiters
                            <==> k in conn.sessionLimiters && (k == sk ==> conn.sessionLimiters[k].retainAfterLeave))
            && (forall k | k in conn'.sessionLimiters :: conn'.sessionLimiters[k] == conn.sessionLimiters[k])
            && (forall k :: k in conn'.subscriptions <==> k in conn.subscriptions && k.session != sk)
            && forall m :: conn'.outbound.Holds(m) <==> conn.outbound.Holds(m) && m.Session() != sk
  {
    PurgedHolds(g.connections[c].outbound, OfSession(sk));
  }

  /** The session's side: the member, its subscriptions and its sequences go, and nothing else. */
  lemma UnlinkedSession(g: Graph, c: nat, sk: SessionKey)
    requires c in g.connections && sk in g.sessions
    ensures var g' := Unlink(g, c, sk);
            && g' == g.(connections := g.connections[c := g'.connections[c]],
                        sessions := g.sessions[sk := g'.sessions[sk]])
            && var s, s' := g.sessions[sk], g'.sessions[sk];
               && s' == s.(members := s.members - {c}, subscribers := s'.subscribers, sequences := s'.sequences)
               && s'.subscribers.Keys == s.subscribers.Keys
               && (forall sp, d | sp in s.subscribers ::
                     d in s'.subscribers[sp] <==> d in s.subscribers[sp] && d != c)
               && (forall k :: k in s'.sequences <==> k in s.sequences && k.connection != c)
               && forall k | k in s'.sequences :: s'.sequences[k] == s.sequences[k]
  {
  }

  /** Nothing the leaver owned is left. */
  lemma DetachTakesOwned(g: Graph, c: nat, sk: SessionKey)
    requires c in g.connections && sk in g.sessions
    ensures forall e | e in Detach(g, c, sk).sessions[sk].entities ::
              e in g.sessions[sk].entities && Detach(g, c, sk).sessions[sk].entities[e] == g.sessions[sk].entities[e]
              && g.sessions[sk].entities[e].owner != c
  {
    var s := g.sessions[sk];
    ClosureIsLeast(s, Removal(OwnedIn(s, c), {}));
  }

  // ------------------------------------------------------------------ epoch advance

  ghost function Emptied(s: Session, space: nat): Session {
    RemoveFromSession(s, Closure(s, Removal(EntitiesIn(s, space), {})))
  }

  /** The space is at exactly the epoch asked for, with its subscribers and nobody in it. Every other space that
      has no chain back is as it was, and the others are gone. */
  ghost predicate Advanced(s: Session, space: nat, epoch: nat, s': Session) {
    && space in s.spaces && space in s'.spaces && s'.spaces[space] == s.spaces[space].(epoch := epoch)
    && (forall q :: q in s'.spaces <==> q in s.spaces && !ChainFrom(s, q, space))
    && (forall q | q in s'.spaces && q != space :: s'.spaces[q] == s.spaces[q])
    && s'.subscribers.Keys == s'.spaces.Keys
    && (forall q | q in s'.subscribers :: q in s.subscribers && s'.subscribers[q] == s.subscribers[q])
    && s'.members == s.members && s'.rateLimit == s.rateLimit
    && forall e | e in s'.entities :: e in s.entities && s'.entities[e] == s.entities[e] && s.entities[e].space != space
  }

  lemma AdvancedExactly(s: Session, space: nat, epoch: nat)
    requires space in Emptied(s, space).spaces && s.subscribers.Keys == s.spaces.Keys
    ensures Advanced(s, space, epoch, SetEpoch(Emptied(s, space), space, epoch))
  {
    var seed := Removal(EntitiesIn(s, space), {});
    ClosureIsLeast(s, seed);
    TableKeys(s, Closure(s, seed));
    forall q ensures q in Closure(s, seed).spaces <==> q in s.spaces && ChainFrom(s, q, space) {
      RemovedExactlyByChain(s, space, q);
    }
  }

  /** Exactly the values and sequences of other spaces that still name what is there survive. */
  lemma AdvancedKeys(s: Session, space: nat, epoch: nat)
    requires space in Emptied(s, space).spaces && KeysOk(s)
    ensures KeysAdvanced(s, space, SetEpoch(Emptied(s, space), space, epoch))
  {
    RemovalCutsKeys(s, Closure(s, Removal(EntitiesIn(s, space), {})));
    AdvancedAfter(s, Emptied(s, space), space, epoch);
  }

  ghost predicate KeysAdvanced(s: Session, space: nat, s': Session) {
    && (forall k :: k in s'.state <==> k in s.state && k.space != space && Names(s', k.space, k.entity))
    && (forall k | k in s'.state :: s'.state[k] == s.state[k])
    && (forall k :: k in s'.sequences <==> k in s.sequences && k.space != space && Names(s', k.space, k.entity))
    && forall k | k in s'.sequences :: s'.sequences[k] == s.sequences[k]
  }

  lemma AdvancedAfter(s: Session, emptied: Session, space: nat, epoch: nat)
    requires space in emptied.spaces && KeysCut(s, emptied)
    ensures KeysAdvanced(s, space, SetEpoch(emptied, space, epoch))
  {
    SameNames(emptied, space, epoch);
  }

  /** An advance that does not fail sets exactly the epoch asked for. */
  lemma AdvanceSets(g: Graph, sk: SessionKey, space: nat, epoch: nat)
    requires AdvanceOutcome(g, sk, space, epoch).1.None?
    ensures var g' := AdvanceOutcome(g, sk, space, epoch).0;
            && sk in g.sessions && sk in g'.sessions && g'.sessions == g.sessions[sk := g'.sessions[sk]]
            && space in Emptied(g.sessions[sk], space).spaces
            && g'.sessions[sk] == SetEpoch(Emptied(g.sessions[sk], space), space, epoch)
            && (g.sessions[sk].subscribers.Keys == g.sessions[sk].spaces.Keys
                ==> Advanced(g.sessions[sk], space, epoch, g'.sessions[sk]))
  {
    if g.sessions[sk].subscribers.Keys == g.sessions[sk].spaces.Keys { AdvancedExactly(g.sessions[sk], space, epoch); }
  }

  /** Exactly the messages to the space, or naming something that went with it, leave the queues. */
  lemma AdvancedQueue(g: Graph, sk: SessionKey, space: nat, epoch: nat, c: nat)
    requires Ready(g, sk) && AdvanceOutcome(g, sk, space, epoch).1.None? && c in g.connections
    ensures var (conn, g') := (g.connections[c], AdvanceOutcome(g, sk, space, epoch).0);
            && c in g'.connections && sk in g'.sessions
            && forall m :: g'.connections[c].outbound.Holds(m)
                           <==> conn.outbound.Holds(m) && (m.Session() == sk ==>
                                  m.space != space && Names(g'.sessions[sk], m.space, m.entity))
  {
    var r := Closure(g.sessions[sk], Removal(EntitiesIn(g.sessions[sk], space), {}));
    var g1 := Remove(g, sk, r);
    RemovalCutsConnection(g, sk, r, c);
    PurgedHolds(g1.connections[c].outbound, InSpace(sk, space));
    SameNames(g1.sessions[sk], space, epoch);
  }

  lemma SameNames(s: Session, space: nat, epoch: nat)
    requires space in s.spaces
    ensures forall sp, e :: Names(SetEpoch(s, space, epoch), sp, e) <==> Names(s, sp, e)
  {
  }

  // ------------------------------------------------------------------ budgets

  /** A new policy is in force for the session; no connection's spent budget changes, and with a policy set every
      budget for the session outlives the membership for one of its windows. */
  lemma RateLimitEffects(g: Graph, sk: SessionKey, policy: Option<Policy>, c: nat)
    requires sk in g.sessions && c in g.connections
    ensures var g' := SetRateLimit(g, sk, policy);
            && g'.sessions == g.sessions[sk := g.sessions[sk].(rateLimit := policy)]
            && g'.connections.Keys == g.connections.Keys
            && var conn, conn' := g.connections[c], g'.connections[c];
               && conn' == conn.(sessionLimiters := conn'.sessionLimiters)
               && conn'.sessionLimiters.Keys == conn.sessionLimiters.Keys
               && (forall k | k in conn.sessionLimiters ::
                     && conn'.sessionLimiters[k].limiter == conn.sessionLimiters[k].limiter
                     && (k != sk || policy.None? ==> conn'.sessionLimiters[k] == conn.sessionLimiters[k])
                     && (k == sk && policy.Some? ==>
                           conn'.sessionLimiters[k].retainAfterLeave
                             && conn'.sessionLimiters[k].window == policy.value.window))
  {
  }
}
