/** Every accepted command keeps the session graph consistent. */
module CommandInvariants {
  import opened Model
  import opened Cache
  import opened SessionGraph
  import opened Cascade
  import opened Removing
  import opened Commands

  // ------------------------------------------------------------------ connections and sessions

  lemma ConnectKeepsInv(g: Graph, config: CoreConfig)
    requires Inv(g, config) && config.Valid() && g.nextConnection > 0
    ensures Inv(Connect(g), config)
  {
    FreshConnection(g, config);
    ConnectSessions(g, config);
    ConnectLinks(g);
    ConnectQueues(g, config);
    ConnectBudgets(g, config);
  }

  lemma FreshConnection(g: Graph, config: CoreConfig)
    requires BudgetsOk(g, config)
    ensures g.nextConnection !in g.connections
  {
  }

  lemma ConnectSessions(g: Graph, config: CoreConfig)
    requires SessionsOk(g, config)
    ensures SessionsOk(Connect(g), config)
  {
  }

  lemma ConnectQueues(g: Graph, config: CoreConfig)
    requires QueuesOk(g, config) && g.nextConnection !in g.connections && config.Valid()
    ensures QueuesOk(Connect(g), config)
  {
    var g' := Connect(g);
    forall c, m | c in g'.connections && g'.connections[c].outbound.Holds(m) ensures Deliverable(g', c, m) {
      assert Deliverable(g, c, m);
    }
  }

  lemma ConnectBudgets(g: Graph, config: CoreConfig)
    requires BudgetsOk(g, config) && g.nextConnection > 0
    ensures BudgetsOk(Connect(g), config)
  {
  }

  lemma ConnectLinks(g: Graph)
    requires LinksOk(g) && g.nextConnection !in g.connections
    ensures LinksOk(Connect(g))
  {
    var g' := Connect(g);
    forall c | c in g'.connections ensures g'.connections[c].ownedEntities == |Owned(g', c)| {
      assert Owned(g', c) == Owned(g, c);
      if c == g.nextConnection { NobodyOwns(g, c); }
    }
  }

  lemma NobodyOwns(g: Graph, c: nat)
    requires OwnersOk(g) && MembersKnown(g) && c !in g.connections
    ensures Owned(g, c) == {}
  {
  }

  lemma ProvisionKeepsInv(g: Graph, config: CoreConfig, sk: SessionKey)
    requires Inv(g, config) && sk !in g.sessions
    ensures Inv(Provision(g, sk), config)
  {
    NewSessionOk(config);
    SessionReplaced(g, config, sk, NEW_SESSION);
    ProvisionLinks(g, sk);
    ProvisionQueues(g, config, sk);
  }

  lemma ProvisionQueues(g: Graph, config: CoreConfig, sk: SessionKey)
    requires QueuesOk(g, config) && sk !in g.sessions
    ensures QueuesOk(Provision(g, sk), config)
  {
    var g' := Provision(g, sk);
    forall c, m | c in g'.connections && g'.connections[c].outbound.Holds(m) ensures Deliverable(g', c, m) {
      assert Deliverable(g, c, m);
    }
  }

  lemma NewSessionOk(config: CoreConfig)
    ensures SessionOk(NEW_SESSION, config)
  {
    assert Ranks(map[], NEW_SESSION.spaces);
  }

  lemma ProvisionLinks(g: Graph, sk: SessionKey)
    requires LinksOk(g) && sk !in g.sessions
    ensures LinksOk(Provision(g, sk))
  {
    ProvisionMembers(g, sk);
    ProvisionSubscribers(g, sk);
    ProvisionCounts(g, sk);
  }

  lemma ProvisionMembers(g: Graph, sk: SessionKey)
    requires MembersKnown(g) && MembershipsKnown(g) && OwnersOk(g) && sk !in g.sessions
    ensures MembersKnown(Provision(g, sk)) && MembershipsKnown(Provision(g, sk)) && OwnersOk(Provision(g, sk))
  {
  }

  lemma ProvisionSubscribers(g: Graph, sk: SessionKey)
    requires SubscriptionsKnown(g) && SubscribersKnown(g) && sk !in g.sessions
    ensures SubscriptionsKnown(Provision(g, sk)) && SubscribersKnown(Provision(g, sk))
  {
  }

  lemma ProvisionCounts(g: Graph, sk: SessionKey)
    requires CountsOk(g) && sk !in g.sessions
    ensures CountsOk(Provision(g, sk))
  {
    forall c | c in g.connections ensures g.connections[c].ownedEntities == |Owned(Provision(g, sk), c)| {
      ProvisionOwned(g, sk, c);
    }
  }

  lemma ProvisionOwned(g: Graph, sk: SessionKey, c: nat)
    requires sk !in g.sessions
    ensures Owned(Provision(g, sk), c) == Owned(g, c)
  {
  }

  // ------------------------------------------------------------------ spaces

  /** What installing a space demands of the session. */
  ghost predicate CanInstall(s: Session, config: CoreConfig, d: SpaceDescriptor) {
    && d.Validate().None? && d.id !in s.spaces && |s.spaces| < config.maxSpaces
    && (d.id in s.tombstones || |s.spaces| + |s.tombstones| < config.maxTombstones)
    && (d.parent.Some? ==> d.parent.value.parentSpace in s.spaces && d.parent.value.anchorEntity in s.entities)
  }

  lemma InstallAcyclic(spaces: map<nat, SpaceDescriptor>, d: SpaceDescriptor)
    requires Acyclic(spaces) && d.id !in spaces
    requires forall sp | sp in spaces && spaces[sp].parent.Some? :: spaces[sp].parent.value.parentSpace in spaces
    requires d.parent.Some? ==> d.parent.value.parentSpace in spaces
    ensures Acyclic(spaces[d.id := d])
  {
    var rank :| Ranks(rank, spaces);
    var r := if d.parent.Some? then rank[d.parent.value.parentSpace] + 1 else 0;
    assert Ranks(rank[d.id := r], spaces[d.id := d]);
  }

  ghost predicate ParentIn(spaces: map<nat, SpaceDescriptor>, sp: nat, among: set<nat>)
    requires sp in spaces
  {
    spaces[sp].parent.Some? && spaces[sp].parent.value.parentSpace in among
  }

  lemma {:induction false} Lowest(rank: map<nat, nat>, among: set<nat>) returns (low: nat)
    requires among != {} && among <= rank.Keys
    ensures low in among && forall x | x in among :: rank[low] <= rank[x]
  {
    var one :| one in among;
    var rest := among - {one};
    assert forall x | x in among :: x == one || x in rest;
    low := one;
    if rest != {} {
      var other := Lowest(rank, rest);
      if rank[other] < rank[one] { low := other; }
    }
  }

  /** Following parents always leads out of any set of spaces. */
  lemma AcyclicIsWellFounded(spaces: map<nat, SpaceDescriptor>, among: set<nat>)
    requires Acyclic(spaces) && among != {} && among <= spaces.Keys
    ensures exists sp :: sp in among && !ParentIn(spaces, sp, among)
  {
    var rank :| Ranks(rank, spaces);
    var low := Lowest(rank, among);
    assert !ParentIn(spaces, low, among);
  }

  lemma AddSize(a: set<nat>, b: set<nat>, x: nat)
    requires x !in a
    ensures |a + {x}| == |a| + 1 && |b - {x}| == if x in b then |b| - 1 else |b|
  {
    if x in b { assert b == (b - {x}) + {x}; } else { assert b - {x} == b; }
  }

  lemma PutKeys<V>(m: map<nat, V>, k: nat, v: V)
    ensures m[k := v].Keys == m.Keys + {k} && |m[k := v]| == |m.Keys + {k}|
  {
    assert m[k := v].Keys == m.Keys + {k};
  }

  lemma DropKeys<V>(m: map<nat, V>, k: nat)
    ensures (m - {k}).Keys == m.Keys - {k} && |m - {k}| == |m.Keys - {k}|
  {
    assert (m - {k}).Keys == m.Keys - {k};
  }

  lemma InstallTables(s: Session, config: CoreConfig, d: SpaceDescriptor)
    requires SpaceTablesOk(s, config) && CanInstall(s, config, d)
    ensures SpaceTablesOk(InstallSpace(s, d), config)
  {
    AddSize(s.spaces.Keys, s.tombstones.Keys, d.id);
    PutKeys(s.spaces, d.id, d);
    PutKeys(s.subscribers, d.id, {});
    DropKeys(s.tombstones, d.id);
  }

  lemma InstallStructure(s: Session, config: CoreConfig, d: SpaceDescriptor)
    requires SpacesOk(s) && EntitiesOk(s) && PositionsOk(s) && CanInstall(s, config, d)
    ensures var s' := InstallSpace(s, d); SpacesOk(s') && EntitiesOk(s') && PositionsOk(s')
  {
  }

  lemma InstallCells(s: Session, d: SpaceDescriptor)
    requires EntitiesOk(s) && CellsOk(s) && d.id !in s.spaces
    ensures CellsOk(InstallSpace(s, d))
  {
    var s' := InstallSpace(s, d);
    forall e ensures ExpectedCell(s', e) == ExpectedCell(s, e) {}
  }

  lemma InstallKeys(s: Session, d: SpaceDescriptor)
    requires KeysOk(s) && d.id !in s.spaces
    ensures KeysOk(InstallSpace(s, d))
  {
  }

  lemma InstallSessionOk(s: Session, config: CoreConfig, d: SpaceDescriptor)
    requires SessionOk(s, config) && CanInstall(s, config, d)
    ensures SessionOk(InstallSpace(s, d), config)
  {
    InstallTables(s, config, d);
    InstallAcyclic(s.spaces, d);
    InstallStructure(s, config, d);
    InstallCells(s, d);
    InstallKeys(s, d);
  }

  lemma InstallExtends(s: Session, config: CoreConfig, d: SpaceDescriptor)
    requires SpaceTablesOk(s, config) && d.id !in s.spaces
    ensures Extends(s, InstallSpace(s, d))
  {
  }

  lemma InstallKeepsInv(g: Graph, config: CoreConfig, sk: SessionKey, d: SpaceDescriptor)
    requires Inv(g, config) && sk in g.sessions && CanInstall(g.sessions[sk], config, d)
    ensures Inv(WithSession(g, sk, InstallSpace(g.sessions[sk], d)), config)
  {
    SessionOf(g, config, sk);
    InstallSessionOk(g.sessions[sk], config, d);
    InstallExtends(g.sessions[sk], config, d);
    ExtendKeepsInv(g, config, sk, InstallSpace(g.sessions[sk], d));
  }

  lemma SessionOf(g: Graph, config: CoreConfig, sk: SessionKey)
    requires SessionsOk(g, config) && sk in g.sessions
    ensures SessionOk(g.sessions[sk], config)
  {
  }

  /** The space has been emptied: no entity, and no queued message names it. */
  ghost predicate Emptied(g: Graph, sk: SessionKey, space: nat)
    requires sk in g.sessions
  {
    && EntitiesIn(g.sessions[sk], space) == {}
    && forall c, m | c in g.connections && g.connections[c].outbound.Holds(m) :: !InSpace(sk, space)(m)
  }

  lemma SetEpochStructure(s: Session, space: nat, epoch: nat)
    requires SpacesOk(s) && EntitiesOk(s) && PositionsOk(s) && space in s.spaces && epoch > 0
    requires EntitiesIn(s, space) == {}
    ensures var s' := SetEpoch(s, space, epoch); SpacesOk(s') && EntitiesOk(s') && PositionsOk(s')
  {
    forall e | e in s.entities ensures s.entities[e].space != space { assert e !in EntitiesIn(s, space); }
  }

  lemma SetEpochCells(s: Session, space: nat, epoch: nat)
    requires EntitiesOk(s) && CellsOk(s) && space in s.spaces && EntitiesIn(s, space) == {}
    ensures CellsOk(SetEpoch(s, space, epoch))
  {
    var s' := SetEpoch(s, space, epoch);
    forall e ensures ExpectedCell(s', e) == ExpectedCell(s, e) {
      assert e !in EntitiesIn(s, space);
    }
  }

  lemma SetEpochKeys(s: Session, space: nat, epoch: nat)
    requires KeysOk(s) && space in s.spaces
    ensures KeysOk(SetEpoch(s, space, epoch))
  {
  }

  lemma SetEpochTables(s: Session, config: CoreConfig, space: nat, epoch: nat)
    requires SpaceTablesOk(s, config) && Acyclic(s.spaces) && space in s.spaces
    ensures SpaceTablesOk(SetEpoch(s, space, epoch), config) && Acyclic(SetEpoch(s, space, epoch).spaces)
  {
    var s' := SetEpoch(s, space, epoch);
    assert s'.spaces.Keys == s.spaces.Keys;
    SubmapAcyclic(s.spaces, s'.spaces);
  }

  lemma SetEpochSizes(s: Session, space: nat, epoch: nat)
    requires space in s.spaces && s.stateBytes == ByteLen(s.state)
    ensures var s' := SetEpoch(s, space, epoch);
            |s'.sequences| <= |s.sequences| && |s'.state| <= |s.state| && s'.stateBytes <= s.stateBytes
  {
    var s' := SetEpoch(s, space, epoch);
    SubsetSize(s'.sequences.Keys, s.sequences.Keys);
    ByteLenSubset(s.state, s'.state);
  }

  lemma SetEpochSessionOk(s: Session, config: CoreConfig, space: nat, epoch: nat)
    requires SessionOk(s, config) && space in s.spaces && EntitiesIn(s, space) == {} && epoch > 0
    ensures SessionOk(SetEpoch(s, space, epoch), config)
  {
    SetEpochStructure(s, space, epoch);
    SetEpochCells(s, space, epoch);
    SetEpochKeys(s, space, epoch);
    SetEpochTables(s, config, space, epoch);
    SetEpochSizes(s, space, epoch);
  }

  lemma SetEpochQueues(g: Graph, config: CoreConfig, sk: SessionKey, space: nat, epoch: nat)
    requires QueuesOk(g, config) && sk in g.sessions && space in g.sessions[sk].spaces && Emptied(g, sk, space)
    ensures QueuesOk(WithSession(g, sk, SetEpoch(g.sessions[sk], space, epoch)), config)
  {
    var g' := WithSession(g, sk, SetEpoch(g.sessions[sk], space, epoch));
    forall c, m | c in g'.connections && g'.connections[c].outbound.Holds(m) ensures Deliverable(g', c, m) {
      assert Deliverable(g, c, m) && !InSpace(sk, space)(m);
    }
  }

  lemma SetEpochKeepsInv(g: Graph, config: CoreConfig, sk: SessionKey, space: nat, epoch: nat)
    requires Inv(g, config) && sk in g.sessions && space in g.sessions[sk].spaces && Emptied(g, sk, space) && epoch > 0
    ensures Inv(WithSession(g, sk, SetEpoch(g.sessions[sk], space, epoch)), config)
  {
    SessionOf(g, config, sk);
    SetEpochSessionOk(g.sessions[sk], config, space, epoch);
    SessionReplaced(g, config, sk, SetEpoch(g.sessions[sk], space, epoch));
    SameLinks(g, sk, SetEpoch(g.sessions[sk], space, epoch));
    SetEpochQueues(g, config, sk, space, epoch);
  }

  /** Members, subscribers and entities unchanged: all links stay. */
  lemma SameLinks(g: Graph, sk: SessionKey, s': Session)
    requires LinksOk(g) && sk in g.sessions
    requires s'.members == g.sessions[sk].members && s'.subscribers == g.sessions[sk].subscribers
    requires s'.entities.Keys == g.sessions[sk].entities.Keys
    requires forall e | e in s'.entities :: s'.entities[e].owner == g.sessions[sk].entities[e].owner
    ensures LinksOk(WithSession(g, sk, s'))
  {
    var g' := WithSession(g, sk, s');
    ExtendMembers(g, sk, s');
    SameSubscribers(g, sk, s');
    forall c | c in g'.connections ensures g'.connections[c].ownedEntities == |Owned(g', c)| {
      assert Owned(g', c) == Owned(g, c);
    }
  }

  lemma SameSubscribers(g: Graph, sk: SessionKey, s': Session)
    requires SubscriptionsKnown(g) && SubscribersKnown(g) && OwnersOk(g) && sk in g.sessions
    requires s'.members == g.sessions[sk].members && s'.subscribers == g.sessions[sk].subscribers
    requires s'.entities.Keys == g.sessions[sk].entities.Keys
    requires forall e | e in s'.entities :: s'.entities[e].owner == g.sessions[sk].entities[e].owner
    ensures var g' := WithSession(g, sk, s'); SubscriptionsKnown(g') && SubscribersKnown(g') && OwnersOk(g')
  {
  }

  lemma CascadeEmpties(g: Graph, sk: SessionKey, space: nat)
    requires sk in g.sessions
    ensures EntitiesIn(RemoveCascade(g, sk, EntitiesIn(g.sessions[sk], space)).sessions[sk], space) == {}
  {
    var s := g.sessions[sk];
    var r := Closure(s, Removal(EntitiesIn(s, space), {}));
    assert EntitiesIn(s, space) <= r.entities;
  }

  lemma CascadeKeepsInv(g: Graph, config: CoreConfig, sk: SessionKey, entities: set<nat>)
    requires Inv(g, config) && sk in g.sessions
    ensures Inv(RemoveCascade(g, sk, entities), config)
  {
    RemoveKeepsInv(g, config, sk, Closure(g.sessions[sk], Removal(entities, {})));
  }

  lemma AdvanceKeepsInv(g: Graph, config: CoreConfig, sk: SessionKey, space: nat, epoch: nat)
    requires Inv(g, config) && sk in g.sessions && epoch > 0
    ensures Inv(AdvanceEpoch(g, sk, space, epoch), config)
  {
    var g0 := RemoveCascade(g, sk, EntitiesIn(g.sessions[sk], space));
    CascadeKeepsInv(g, config, sk, EntitiesIn(g.sessions[sk], space));
    CascadeEmpties(g, sk, space);
    PurgeAllKeepsInv(g0, config, InSpace(sk, space));
    var g1 := PurgeAll(g0, InSpace(sk, space));
    if space in g1.sessions[sk].spaces {
      assert Emptied(g1, sk, space);
      SetEpochKeepsInv(g1, config, sk, space, epoch);
    }
  }
}
