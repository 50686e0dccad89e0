/** Who receives a message: every subscriber, or the subscribers owning an entity the grid finds
    near the sender. */
module Routing {
  import opened Model
  import opened Spatial
  import opened SessionGraph

  predicate IsGrid(routing: RoutingPolicy) { routing.Grid2D? || routing.Grid3D? }

  ghost predicate Structured(s: Session) {
    SpacesOk(s) && EntitiesOk(s) && PositionsOk(s) && CellsOk(s)
  }

  /** The sender is a positioned entity of the message's space and epoch. */
  ghost predicate HasSource(s: Session, m: OutboundMessage) {
    && m.space in s.spaces && m.entity.Some? && m.entity.value in s.entities
    && s.entities[m.entity.value].position.Some?
    && s.entities[m.entity.value].space == m.space && s.entities[m.entity.value].epoch == m.epoch
  }

  function RadiusInCells(routing: RoutingPolicy): int
    requires IsGrid(routing) && routing.cellSize > 0.0
  {
    Ceil(routing.interestRadius / routing.cellSize)
  }

  /** Linear scan over all entities: those of the sender's space within the interest radius. */
  ghost function InRadius(s: Session, m: OutboundMessage): set<nat>
    requires HasSource(s, m) && IsGrid(s.spaces[m.space].routing)
  {
    set e | e in s.entities && s.entities[e].position.Some? && s.entities[e].space == m.space
            && Within(s.entities[m.entity.value].position.value, s.entities[e].position.value,
                      s.spaces[m.space].routing.interestRadius)
  }

  /** Those of the sender's space whose cell is near the sender's. */
  ghost function InNearCells(s: Session, m: OutboundMessage): set<nat>
    requires HasSource(s, m) && IsGrid(s.spaces[m.space].routing) && s.spaces[m.space].routing.cellSize > 0.0
  {
    set e | e in s.entityCells && e in s.entities && s.entities[e].space == m.space && m.entity.value in s.entityCells
            && CellsAreNear(s.entityCells[m.entity.value].cell, s.entityCells[e].cell,
                            RadiusInCells(s.spaces[m.space].routing))
  }

  /** The owners of the given entities, as far as they subscribe. */
  ghost function Owners(s: Session, subscribers: set<nat>, entities: set<nat>): set<nat> {
    set e | e in entities && e in s.entities && s.entities[e].owner in subscribers :: s.entities[e].owner
  }

  /** What routing means, without any index: critical messages and unrouted spaces reach every
      subscriber; exact spatial routing reaches the owners in the radius; coarse spatial routing
      reaches the owners in the near cells. */
  ghost function Recipients(s: Session, m: OutboundMessage): set<nat>
    requires SpacesOk(s) && s.subscribers.Keys == s.spaces.Keys
  {
    if m.space !in s.spaces then {}
    else if m.delivery.IsCritical() || !IsGrid(s.spaces[m.space].routing) then s.subscribers[m.space]
    else if !HasSource(s, m) then {}
    else if s.spaces[m.space].routing.exactDistance then Owners(s, s.subscribers[m.space], InRadius(s, m))
    else Owners(s, s.subscribers[m.space], InNearCells(s, m))
  }

  // ------------------------------------------------------------------ the index finds what the scan finds

  /** In a grid space every positioned entity is indexed under the cell of its position. */
  lemma IndexedWhenPositioned(s: Session, e: nat)
    requires Structured(s) && e in s.entities && s.entities[e].position.Some?
             && IsGrid(s.spaces[s.entities[e].space].routing)
    ensures e in s.entityCells
    ensures CellFor(s.entities[e].position.value, s.spaces[s.entities[e].space],
                    s.entities[e].epoch) == Ok(Some(s.entityCells[e]))
  {
    assert ExpectedCell(s, e).Some?;
  }

  lemma IndexedMeansPositioned(s: Session, e: nat)
    requires Structured(s) && e in s.entityCells
    ensures e in s.entities && s.entities[e].position.Some? && IsGrid(s.spaces[s.entities[e].space].routing)
    ensures s.entityCells[e].space == s.entities[e].space && s.entityCells[e].epoch == s.entities[e].epoch
  {
    assert ExpectedCell(s, e) == Some(s.entityCells[e]);
  }

  /** The grid loses no neighbour: everything in the radius is in a near cell. */
  lemma RadiusInNearCells(s: Session, m: OutboundMessage)
    requires Structured(s) && HasSource(s, m) && IsGrid(s.spaces[m.space].routing)
    ensures InRadius(s, m) <= InNearCells(s, m)
  {
    var source := m.entity.value;
    IndexedWhenPositioned(s, source);
    forall e | e in InRadius(s, m) ensures e in InNearCells(s, m) {
      IndexedWhenPositioned(s, e);
      WithinImpliesNear(s.entities[source].position.value, s.entities[e].position.value, s.spaces[m.space],
                        s.entities[source].epoch, s.entities[e].epoch);
    }
  }

  /** Coarse routing reaches at least everyone exact routing would. */
  lemma CoarseReachesMore(s: Session, m: OutboundMessage)
    requires Structured(s) && s.subscribers.Keys == s.spaces.Keys
    requires HasSource(s, m) && IsGrid(s.spaces[m.space].routing) && !m.delivery.IsCritical()
    ensures Owners(s, s.subscribers[m.space], InRadius(s, m)) <= Recipients(s, m)
  {
    RadiusInNearCells(s, m);
  }

  // ------------------------------------------------------------------ the router's loops

  /** An indexed entity the router accepts. */
  predicate Accepted(s: Session, m: OutboundMessage, source: nat, e: nat)
    requires m.space in s.spaces && IsGrid(s.spaces[m.space].routing)
    requires s.spaces[m.space].routing.cellSize > 0.0 && s.spaces[m.space].routing.interestRadius > 0.0
    requires source in s.entities && s.entities[source].position.Some? && source in s.entityCells && e in s.entityCells
  {
    var cell, routing := s.entityCells[e], s.spaces[m.space].routing;
    && cell.space == m.space && cell.epoch == m.epoch
    && CellsAreNear(s.entityCells[source].cell, cell.cell, RadiusInCells(routing))
    && e in s.entities && s.entities[e].position.Some?
    && (routing.exactDistance ==>
          SquaredDistanceWithin(s.entities[source].position.value, s.entities[e].position.value,
                                routing.interestRadius))
  }

  lemma AcceptedIsSpec(s: Session, m: OutboundMessage)
    requires Structured(s) && HasSource(s, m) && IsGrid(s.spaces[m.space].routing)
             && s.entities[m.entity.value].epoch == m.epoch
    requires m.entity.value in s.entityCells
    ensures (set e | e in s.entityCells && Accepted(s, m, m.entity.value, e))
         == if s.spaces[m.space].routing.exactDistance then InRadius(s, m) else InNearCells(s, m)
  {
    RadiusInNearCells(s, m);
    forall e | e in s.entityCells
      ensures Accepted(s, m, m.entity.value, e)
          <==> e in (if s.spaces[m.space].routing.exactDistance then InRadius(s, m) else InNearCells(s, m))
    {
      IndexedMeansPositioned(s, e);
      if s.entities[e].space == m.space {
        ScaledDistanceIsExact(s.entities[m.entity.value].position.value, s.entities[e].position.value,
                              s.spaces[m.space].routing.interestRadius);
      }
    }
  }

  ghost predicate Ready(s: Session, m: OutboundMessage, source: nat) {
    && Structured(s) && m.space in s.spaces && IsGrid(s.spaces[m.space].routing)
    && s.spaces[m.space].routing.cellSize > 0.0 && s.spaces[m.space].routing.interestRadius > 0.0
    && source in s.entities && s.entities[source].position.Some? && source in s.entityCells
  }

  lemma CellContents(s: Session, k: CellKey)
    requires CellsOk(s) && k in s.cellEntities
    ensures forall e :: e in s.cellEntities[k] <==> e in s.entityCells && s.entityCells[e] == k
  {
  }

  lemma CellListed(s: Session, e: nat)
    requires CellsOk(s) && e in s.entityCells
    ensures s.entityCells[e] in s.cellEntities
  {
  }

  /** One cell: the subscribed owners of its accepted entities join the recipients. */
  method ScanCell(s: Session, m: OutboundMessage, source: nat, subscribers: set<nat>, k: CellKey)
    returns (found: set<nat>)
    requires Ready(s, m, source) && k in s.cellEntities
    ensures found == Owners(s, subscribers, AcceptedIn(s, m, source, {k}))
  {
    CellContents(s, k);
    found := {};
    if k.space != m.space || k.epoch != m.epoch
       || !CellsAreNear(s.entityCells[source].cell, k.cell, RadiusInCells(s.spaces[m.space].routing)) {
      return;
    }
    var rest := s.cellEntities[k];
    ghost var done := {};
    while rest != {}
      invariant rest <= s.cellEntities[k]
      invariant done == set e | e in s.cellEntities[k] && e !in rest && Accepted(s, m, source, e)
      invariant found == Owners(s, subscribers, done)
    {
      var e :| e in rest;
      rest := rest - {e};
      if e in s.entities && s.entities[e].position.Some?
         && (s.spaces[m.space].routing.exactDistance ==>
               SquaredDistanceWithin(s.entities[source].position.value, s.entities[e].position.value,
                                     s.spaces[m.space].routing.interestRadius)) {
        done := done + {e};
        if s.entities[e].owner in subscribers {
          found := found + {s.entities[e].owner};
        }
      }
    }
  }

  /** The accepted entities whose cell is among `cells`. */
  ghost function AcceptedIn(s: Session, m: OutboundMessage, source: nat, cells: set<CellKey>): set<nat>
    requires Ready(s, m, source)
  {
    set e | e in s.entityCells && s.entityCells[e] in cells && Accepted(s, m, source, e)
  }

  lemma AcceptedNext(s: Session, m: OutboundMessage, source: nat, subscribers: set<nat>,
                     cells: set<CellKey>, k: CellKey)
    requires Ready(s, m, source)
    ensures Owners(s, subscribers, AcceptedIn(s, m, source, cells + {k}))
         == Owners(s, subscribers, AcceptedIn(s, m, source, cells)) + Owners(s, subscribers,
             AcceptedIn(s, m, source, {k}))
  {
    assert AcceptedIn(s, m, source, cells + {k}) == AcceptedIn(s, m, source, cells) + AcceptedIn(s, m, source, {k});
    OwnersUnion(s, subscribers, AcceptedIn(s, m, source, cells), AcceptedIn(s, m, source, {k}));
  }

  lemma OwnersUnion(s: Session, subscribers: set<nat>, a: set<nat>, b: set<nat>)
    ensures Owners(s, subscribers, a + b) == Owners(s, subscribers, a) + Owners(s, subscribers, b)
  {
  }

  lemma AcceptedAll(s: Session, m: OutboundMessage, source: nat)
    requires Ready(s, m, source)
    ensures AcceptedIn(s, m, source, {}) == {}
    ensures AcceptedIn(s, m, source, s.cellEntities.Keys) == set e | e in s.entityCells && Accepted(s, m, source, e)
  {
    forall e | e in s.entityCells ensures s.entityCells[e] in s.cellEntities { CellListed(s, e); }
  }

  /** All cells, in any order. */
  method ScanCells(s: Session, m: OutboundMessage, source: nat, subscribers: set<nat>) returns (recipients: set<nat>)
    requires Ready(s, m, source)
    ensures recipients == Owners(s, subscribers, set e | e in s.entityCells && Accepted(s, m, source, e))
  {
    recipients := {};
    var rest := s.cellEntities.Keys;
    ghost var done := {};
    AcceptedAll(s, m, source);
    while rest != {}
      invariant rest <= s.cellEntities.Keys && done == s.cellEntities.Keys - rest
      invariant recipients == Owners(s, subscribers, AcceptedIn(s, m, source, done))
    {
      var k :| k in rest;
      var found := ScanCell(s, m, source, subscribers, k);
      AcceptedNext(s, m, source, subscribers, done, k);
      rest, done, recipients := rest - {k}, done + {k}, recipients + found;
    }
  }

  /** The router: critical and unrouted messages go to every subscriber, the rest to the owners the
      grid finds, which are exactly those a linear scan of all positioned entities would find. */
  method RoutingRecipients(s: Session, m: OutboundMessage) returns (recipients: set<nat>)
    requires Structured(s) && s.subscribers.Keys == s.spaces.Keys
    ensures recipients == Recipients(s, m)
  {
    if m.space !in s.spaces {
      return {};
    }
    var subscribers, routing := s.subscribers[m.space], s.spaces[m.space].routing;
    if m.delivery.IsCritical() || routing.BroadcastAll? || routing.TopicOnly? {
      return subscribers;
    }
    if m.entity.None? || m.entity.value !in s.entities || s.entities[m.entity.value].position.None? {
      return {};
    }
    var source := m.entity.value;
    if source !in s.entityCells {
      if HasSource(s, m) { IndexedWhenPositioned(s, source); }
      return {};
    }
    IndexedMeansPositioned(s, source);
    if s.entityCells[source].space != m.space || s.entityCells[source].epoch != m.epoch {
      return {};
    }
    recipients := ScanCells(s, m, source, subscribers);
    AcceptedIsSpec(s, m);
  }
}
