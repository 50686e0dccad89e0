/** The loops over the core's tables, each equal to its plain description. */
module GraphLoops {
  import opened Model
  import opened Queue
  import opened Cache
  import opened SessionGraph
  import opened Cascade
  import opened Removing
  import opened Commands
  import opened CellIndex
  import opened Publishing
  import opened Fanout
  import opened Checks

  ghost function Buried(spaces: map<nat, SpaceDescriptor>, gone: set<nat>): map<nat, nat> {
    map sp | sp in spaces && sp in gone :: spaces[sp].epoch
  }

  lemma BuryOne(spaces: map<nat, SpaceDescriptor>, tombstones: map<nat, nat>, gone: set<nat>, sp: nat)
    ensures tombstones + Buried(spaces, gone + {sp})
         == if sp in spaces then (tombstones + Buried(spaces, gone))[sp := spaces[sp].epoch]
           else tombstones + Buried(spaces, gone)
  {
  }

  lemma RetireOne<V>(table: map<nat, V>, gone: set<nat>, sp: nat)
    ensures table - (gone + {sp}) == table - gone - {sp}
  {
  }

  /** Removes spaces one by one, leaving a tombstone with the last epoch of each. */
  method RetireSpaces(s: Session, doomed: set<nat>)
    returns (spaces: map<nat, SpaceDescriptor>, tombstones: map<nat, nat>, subscribers: map<nat, set<nat>>)
    requires forall sp | sp in s.spaces :: s.spaces[sp].id == sp
    ensures spaces == s.spaces - doomed && subscribers == s.subscribers - doomed
    ensures tombstones == s.tombstones + Buried(s.spaces, doomed)
  {
    spaces, tombstones, subscribers := s.spaces, s.tombstones, s.subscribers;
    var rest := doomed;
    ghost var gone := {};
    while rest != {}
      invariant rest <= doomed && gone == doomed - rest
      invariant spaces == s.spaces - gone && subscribers == s.subscribers - gone
      invariant tombstones == s.tombstones + Buried(s.spaces, gone)
    {
      var sp :| sp in rest;
      RetireOne(s.spaces, gone, sp);
      RetireOne(s.subscribers, gone, sp);
      BuryOne(s.spaces, s.tombstones, gone, sp);
      if sp in spaces {
        tombstones := tombstones[spaces[sp].id := spaces[sp].epoch];
      }
      spaces := spaces - {sp};
      subscribers := subscribers - {sp};
      rest := rest - {sp};
      gone := gone + {sp};
    }
  }

  function CountOf(owners: map<nat, nat>, c: nat): nat { if c in owners then owners[c] else 0 }

  /** The counters agree with the losses among the entities seen so far. */
  ghost predicate Counted(s: Session, r: Removal, owners: map<nat, nat>, seen: set<nat>) {
    forall c :: CountOf(owners, c) == |Lost(s, r, c) * seen|
  }

  lemma LostOne(s: Session, r: Removal, c: nat, seen: set<nat>, e: nat)
    requires e in s.entities && e !in seen
    ensures |Lost(s, r, c) * (seen + {e})|
         == |Lost(s, r, c) * seen| + if e in r.entities && s.entities[e].owner == c then 1 else 0
  {
    if e in Lost(s, r, c) {
      assert Lost(s, r, c) * (seen + {e}) == Lost(s, r, c) * seen + {e};
    } else {
      assert Lost(s, r, c) * (seen + {e}) == Lost(s, r, c) * seen;
    }
  }

  lemma CountOne(s: Session, r: Removal, owners: map<nat, nat>, seen: set<nat>, e: nat)
    requires e in s.entities && e !in seen && Counted(s, r, owners, seen)
    ensures var o := s.entities[e].owner;
            Counted(s, r, if e in r.entities then owners[o := CountOf(owners, o) + 1] else owners, seen + {e})
  {
    var o := s.entities[e].owner;
    var owners' := if e in r.entities then owners[o := CountOf(owners, o) + 1] else owners;
    forall c ensures CountOf(owners', c) == |Lost(s, r, c) * (seen + {e})| {
      LostOne(s, r, c, seen, e);
    }
  }

  /** How many entities each owner loses. */
  method CountLost(s: Session, r: Removal) returns (owners: map<nat, nat>)
    ensures forall c :: CountOf(owners, c) == |Lost(s, r, c)|
  {
    owners := map[];
    var rest := s.entities.Keys;
    ghost var seen := {};
    assert forall c :: Lost(s, r, c) * seen == {};
    while rest != {}
      invariant rest <= s.entities.Keys && seen == s.entities.Keys - rest
      invariant Counted(s, r, owners, seen)
    {
      var e :| e in rest;
      CountOne(s, r, owners, seen, e);
      if e in r.entities {
        var owner := s.entities[e].owner;
        owners := owners[owner := CountOf(owners, owner) + 1];
      }
      rest := rest - {e};
      seen := seen + {e};
    }
    forall c ensures CountOf(owners, c) == |Lost(s, r, c)| { assert Lost(s, r, c) * seen == Lost(s, r, c); }
  }

  method CleanConnection(conn: Connection, lost: nat, sk: SessionKey, r: Removal) returns (conn': Connection)
    ensures conn' == RemoveFromConnection(conn, lost, sk, r)
  {
    conn' := conn.(ownedEntities := Saturating(conn.ownedEntities, lost));
    conn' := conn'.(subscriptions := (set k | k in conn'.subscriptions && !(k.session == sk && k.space in r.spaces)));
    conn' := conn'.(outbound := conn'.outbound.Purge(GoneMessage(sk, r)));
  }

  /** All connections cleaned except those of `rest`. */
  ghost function Cleaned(cs: Connections, owners: map<nat, nat>, sk: SessionKey, r: Removal,
                         rest: set<nat>): Connections {
    map c | c in cs :: if c in rest then cs[c] else RemoveFromConnection(cs[c], CountOf(owners, c), sk, r)
  }

  lemma CleanOne(cs: Connections, owners: map<nat, nat>, sk: SessionKey, r: Removal, rest: set<nat>, c: nat)
    requires c in rest && c in cs
    ensures Cleaned(cs, owners, sk, r, rest)[c] == cs[c]
    ensures Cleaned(cs, owners, sk, r, rest - {c})
         == Cleaned(cs, owners, sk, r, rest)[c := RemoveFromConnection(cs[c], CountOf(owners, c), sk, r)]
  {
  }

  /** Every connection loses its counters, subscriptions and messages that went. */
  method RemoveFromConnections(cs: Connections, owners: map<nat, nat>, sk: SessionKey, r: Removal)
    returns (cs': Connections)
    ensures cs' == map c | c in cs :: RemoveFromConnection(cs[c], CountOf(owners, c), sk, r)
  {
    cs' := cs;
    var rest := cs.Keys;
    while rest != {}
      invariant rest <= cs.Keys
      invariant cs' == Cleaned(cs, owners, sk, r, rest)
    {
      var c :| c in rest;
      CleanOne(cs, owners, sk, r, rest, c);
      rest := rest - {c};
      var conn := CleanConnection(cs'[c], CountOf(owners, c), sk, r);
      cs' := cs'[c := conn];
    }
  }

  method PurgeConnections(cs: Connections, drop: OutboundMessage -> bool) returns (cs': Connections)
    ensures cs' == map c | c in cs :: cs[c].(outbound := cs[c].outbound.Purge(drop))
  {
    cs' := cs;
    var rest := cs.Keys;
    while rest != {}
      invariant rest <= cs.Keys
      invariant cs' == map c | c in cs :: if c in rest then cs[c] else cs[c].(outbound := cs[c].outbound.Purge(drop))
    {
      var c :| c in rest;
      rest := rest - {c};
      cs' := cs'[c := cs'[c].(outbound := cs'[c].outbound.Purge(drop))];
    }
  }

  method DropSubscriber(subscribers: map<nat, set<nat>>, c: nat) returns (r: map<nat, set<nat>>)
    ensures r == map sp | sp in subscribers :: subscribers[sp] - {c}
  {
    r := subscribers;
    var rest := subscribers.Keys;
    while rest != {}
      invariant rest <= subscribers.Keys
      invariant r == map sp | sp in subscribers :: if sp in rest then subscribers[sp] else subscribers[sp] - {c}
    {
      var sp :| sp in rest;
      rest := rest - {sp};
      r := r[sp := r[sp] - {c}];
    }
  }

  /** Pushes one message to its recipients, in any order, noting who overflowed. Nothing is refused. */
  method PushRecipients(g: Graph, config: CoreConfig, ghost s: Session, ghost sk: SessionKey, m: OutboundMessage,
                        recipients: set<nat>, dropped: set<nat>)
    returns (cs: Connections, overflowed: set<nat>)
    requires QueuesOk(g, config) && Sound(s, sk, m)
    ensures cs == PushTo(g, config, Targets(g, m, recipients, dropped), m).connections
    ensures overflowed == Overflowed(g, config, Targets(g, m, recipients, dropped), m)
  {
    cs, overflowed := g.connections, {};
    var rest := recipients;
    ghost var done := {};
    while rest != {}
      invariant rest <= recipients && done == Targets(g, m, recipients - rest, dropped)
      invariant cs == PushTo(g, config, done, m).connections
      invariant overflowed == Overflowed(g, config, done, m)
    {
      var c :| c in rest;
      ghost var more := Targets(g, m, recipients - rest + {c}, dropped);
      assert recipients - (rest - {c}) == recipients - rest + {c};
      rest := rest - {c};
      if c !in dropped && c in cs && CanReceive(cs[c], m) {
        assert more == done + {c} && cs[c] == g.connections[c];
        SoundNeverRefused(g.connections[c].outbound, config, s, sk, m);
        var (lanes, result) := cs[c].outbound.Push(config.queue, m);
        if result == Ok(CriticalCapacityExhausted) {
          overflowed := overflowed + {c};
        }
        cs := cs[c := cs[c].(outbound := lanes)];
        done := done + {c};
      } else {
        assert more == done;
      }
    }
    assert recipients - {} == recipients;
  }

  /** The session's own tables without the removed entities and spaces. */
  method RemoveInSession(s: Session, r: Removal) returns (s': Session)
    requires s.cellEntities == CellsOf(s.entityCells) && forall sp | sp in s.spaces :: s.spaces[sp].id == sp
    ensures s' == RemoveFromSession(s, r)
  {
    var ec, ce := RemoveAllFromCells(s.entityCells, s.cellEntities, r.entities);
    var spaces, tombstones, subscribers := RetireSpaces(s, r.spaces);
    var state := map k | k in s.state && Survives(r, k.space, k.entity) :: s.state[k];
    var bytes := SumBytes(state);
    s' := s.(entities := s.entities - r.entities, entityCells := ec, cellEntities := ce,
             spaces := spaces, tombstones := tombstones, subscribers := subscribers,
             state := state, stateBytes := bytes,
             sequences := (map k | k in s.sequences && Survives(r, k.space, k.entity) :: s.sequences[k]));
  }

  /** Removes entities with every space anchored to them and everything in those spaces. */
  method RemoveEntitiesAndAnchoredSpaces(g: Graph, sk: SessionKey, seed: set<nat>) returns (g': Graph)
    requires sk in g.sessions && SpacesOk(g.sessions[sk]) && EntitiesOk(g.sessions[sk])
    requires g.sessions[sk].cellEntities == CellsOf(g.sessions[sk].entityCells)
    ensures g' == RemoveCascade(g, sk, seed)
  {
    var s := g.sessions[sk];
    var r := ComputeCascade(s, seed);
    var owners := CountLost(s, r);
    var s' := RemoveInSession(s, r);
    var cs := RemoveFromConnections(g.connections, owners, sk, r);
    g' := g.(connections := cs, sessions := g.sessions[sk := s']);
    assert cs == Remove(g, sk, r).connections;
  }

  ghost predicate Cascadable(g: Graph, sk: SessionKey) {
    && sk in g.sessions && SpacesOk(g.sessions[sk]) && EntitiesOk(g.sessions[sk])
    && g.sessions[sk].cellEntities == CellsOf(g.sessions[sk].entityCells)
  }

  lemma CascadableOf(g: Graph, config: CoreConfig, sk: SessionKey)
    requires SessionsOk(g, config) && sk in g.sessions
    ensures Cascadable(g, sk)
  {
    assert SessionOk(g.sessions[sk], config);
  }

  /** Removes every trace of a membership once the member's entities are gone. */
  method UnlinkMember(g: Graph, c: nat, sk: SessionKey) returns (g': Graph)
    requires c in g.connections && sk in g.sessions
    ensures g' == Unlink(g, c, sk)
  {
    var s, conn := g.sessions[sk], g.connections[c];
    var subscribers := DropSubscriber(s.subscribers, c);
    var sequences := map k | k in s.sequences && k.connection != c :: s.sequences[k];
    assert sequences == Unlink(g, c, sk).sessions[sk].sequences;
    s := s.(members := s.members - {c}, subscribers := subscribers, sequences := sequences);
    var limiters := conn.sessionLimiters;
    if sk in limiters && !limiters[sk].retainAfterLeave {
      limiters := limiters - {sk};
    }
    var subscriptions := set k | k in conn.subscriptions && k.session != sk;
    assert subscriptions == Unlink(g, c, sk).connections[c].subscriptions;
    conn := conn.(memberships := conn.memberships - {sk}, sessionLimiters := limiters, subscriptions := subscriptions,
                  outbound := conn.outbound.Purge(OfSession(sk)));
    assert conn == Unlink(g, c, sk).connections[c];
    assert s == Unlink(g, c, sk).sessions[sk];
    g' := g.(connections := g.connections[c := conn], sessions := g.sessions[sk := s]);
  }

  method DetachMember(g: Graph, c: nat, sk: SessionKey) returns (g': Graph)
    requires c in g.connections && Cascadable(g, sk)
    ensures g' == Detach(g, c, sk)
  {
    var s := g.sessions[sk];
    var owned := set e | e in s.entities && s.entities[e].owner == c;
    g' := RemoveEntitiesAndAnchoredSpaces(g, sk, owned);
    g' := UnlinkMember(g', c, sk);
  }

  /** The space's session after its epoch moved on: no value or sequence of the old epoch is left. */
  method BumpEpoch(s: Session, space: nat, epoch: nat) returns (s': Session)
    requires space in s.spaces
    ensures s' == SetEpoch(s, space, epoch)
  {
    var state := map k | k in s.state && k.space != space :: s.state[k];
    var bytes := SumBytes(state);
    s' := s.(spaces := s.spaces[space := s.spaces[space].(epoch := epoch)], state := state, stateBytes := bytes,
             sequences := (map k | k in s.sequences && k.space != space :: s.sequences[k]));
  }

  method EmptySpaceIn(g: Graph, sk: SessionKey, space: nat) returns (g': Graph)
    requires Cascadable(g, sk)
    ensures g' == EmptySpace(g, sk, space)
  {
    var s := g.sessions[sk];
    var inside := set e | e in s.entities && s.entities[e].space == space;
    var g1 := RemoveEntitiesAndAnchoredSpaces(g, sk, inside);
    var cs := PurgeConnections(g1.connections, InSpace(sk, space));
    g' := g1.(connections := cs);
  }

  method MoveEpochIn(g: Graph, sk: SessionKey, space: nat, epoch: nat) returns (g': Graph, gone: bool)
    requires sk in g.sessions
    ensures g' == MoveEpoch(g, sk, space, epoch) && gone == (space !in g.sessions[sk].spaces)
  {
    gone := space !in g.sessions[sk].spaces;
    g' := g;
    if !gone {
      var bumped := BumpEpoch(g.sessions[sk], space, epoch);
      g' := g.(sessions := g.sessions[sk := bumped]);
    }
  }

  /** Empties a space, purges its messages and moves it to the next epoch, if it is still there. */
  method AdvanceSpace(g: Graph, sk: SessionKey, space: nat, epoch: nat) returns (g': Graph, gone: bool)
    requires Cascadable(g, sk)
    ensures g' == AdvanceEpoch(g, sk, space, epoch) && gone == (space !in EmptySpace(g, sk, space).sessions[sk].spaces)
  {
    g' := EmptySpaceIn(g, sk, space);
    g', gone := MoveEpochIn(g', sk, space, epoch);
  }

  method RelocateEntity(s: Session, e: nat, space: nat, epoch: nat) returns (s': Session)
    requires e in s.entities && s.cellEntities == CellsOf(s.entityCells)
    ensures s' == Relocate(s, e, space, epoch)
  {
    var rec := s.entities[e];
    var ec, ce := RemoveFromCell(s.entityCells, s.cellEntities, e);
    var state := map k | k in s.state && !(k.space == rec.space && k.epoch == rec.epoch && k.entity == Some(e)) ::
      s.state[k];
    var bytes := SumBytes(state);
    s' := s.(entities := s.entities[e := rec.(space := space, epoch := epoch, position := None)],
             entityCells := ec, cellEntities := ce, state := state, stateBytes := bytes,
             sequences := (map k | k in s.sequences
                           && !(k.space == rec.space && k.epoch == rec.epoch && k.entity == Some(e)) ::
                              s.sequences[k]));
  }

  method TransitionIn(g: Graph, sk: SessionKey, e: nat, space: nat, epoch: nat) returns (g': Graph)
    requires sk in g.sessions && e in g.sessions[sk].entities
    requires g.sessions[sk].cellEntities == CellsOf(g.sessions[sk].entityCells)
    ensures g' == Transition(g, sk, e, space, epoch)
  {
    var rec := g.sessions[sk].entities[e];
    var s' := RelocateEntity(g.sessions[sk], e, space, epoch);
    var cs := PurgeConnections(g.connections, OfEntity(sk, rec.space, rec.epoch, e));
    g' := g.(connections := cs, sessions := g.sessions[sk := s']);
  }
}
