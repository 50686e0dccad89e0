/** A run of commands after which advancing a space epoch fails although it was accepted: the anchor of a
    child space has moved into the child. */
module AdvanceWitness {
  import opened Model
  import opened SessionGraph
  import opened Commands
  import opened MemberInvariants
  import opened Publishing
  import opened Checks
  import opened Outcomes
  import opened Anchors
  import opened CoreSteps

  const SESSION := SessionKey(1, 1)
  const ROOT := SpaceDescriptor(1, Logical, None, None, 1, BroadcastAll)
  const CHILD := SpaceDescriptor(2, Logical, None, Some(ParentAnchor(1, 1)), 1, BroadcastAll)

  function Everything(): Grants {
    Grants(map[1 := ReadWriteAccess], map[SESSION := ReadWriteAccess],
           map[SpaceKey(SESSION, 1) := ReadWriteAccess, SpaceKey(SESSION, 2) := ReadWriteAccess], map[])
  }

  function Owner(): Principal { Principal(1, Everything()) }

  /** Room for two spaces and two subscriptions. */
  predicate Roomy(config: CoreConfig) { config.Valid() && config.maxSpaces >= 2 && config.maxSubscriptions >= 2 }

  // The graph after each command, every command being accepted.

  function Provisioned(): Graph { Provision(Graph(map[], map[], 1, 1), SESSION) }

  function Rooted(): Graph { WithSession(Provisioned(), SESSION, InstallSpace(NEW_SESSION, ROOT)) }

  function Connected(): Graph { Connect(Rooted()) }

  function Known(): Graph { WithConnection(Connected(), 1, NEW_CONNECTION.(authenticated := Some(Owner()))) }

  function Joined(): Graph { Join(Known(), 1, SESSION, 0) }

  function Listening(): Graph { Subscribe(Joined(), 1, SpaceKey(SESSION, 1)) }

  function Spawned(): Graph { Spawn(Listening(), 1, SpaceKey(SESSION, 1), 1) }

  function Nested(): Graph { WithSession(Spawned(), SESSION, InstallSpace(Spawned().sessions[SESSION], CHILD)) }

  function Ready(): Graph { Subscribe(Nested(), 1, SpaceKey(SESSION, 2)) }

  ghost function Moved(): Graph { Transition(Ready(), SESSION, 1, 2, 1) }

  lemma RootAccepted(config: CoreConfig)
    requires Roomy(config)
    ensures InstallOutcome(Provisioned(), config, SESSION, ROOT) == (Rooted(), None)
  {
  }

  lemma OwnerJoins(config: CoreConfig)
    requires Roomy(config)
    ensures JoinOutcome(Known(), config, 1, SESSION, 0) == (Joined(), None) && CanJoin(Known(), config, 1, SESSION, 0)
  {
    assert Known().connections[1].authenticated.value.grants.CanReadSession(SESSION);
    assert Pruned(Known().connections[1], 0) == map[];
  }

  lemma OwnerListens(config: CoreConfig)
    requires Roomy(config)
    ensures CheckSubscribe(Joined().connections, Joined().sessions, config, 1, SpaceKey(SESSION, 1)).None?
    ensures SpaceKey(SESSION, 1) !in Joined().connections[1].subscriptions
  {
    assert Joined().connections[1].authenticated.value.grants.CanReadSpace(SpaceKey(SESSION, 1));
  }

  lemma OwnerSpawns(config: CoreConfig)
    requires Roomy(config)
    ensures SpawnOutcome(Listening(), config, 1, SpaceKey(SESSION, 1), 1) == (Spawned(), None)
  {
    assert Listening().connections[1].authenticated.value.grants.CanWriteSpace(SpaceKey(SESSION, 1));
  }

  lemma ChildAccepted(config: CoreConfig)
    requires Roomy(config)
    ensures InstallOutcome(Spawned(), config, SESSION, CHILD) == (Nested(), None)
  {
    OneSpace();
    var g := Spawned();
    ChildInstalls(g, config);
  }

  lemma ChildInstalls(g: Graph, config: CoreConfig)
    requires Roomy(config) && SESSION in g.sessions
    requires g.sessions[SESSION].spaces.Keys == {1} && |g.sessions[SESSION].spaces| == 1
             && g.sessions[SESSION].tombstones == map[]
    requires 1 in g.sessions[SESSION].entities && g.sessions[SESSION].entities[1].space == 1
    ensures InstallOutcome(g, config, SESSION, CHILD)
         == (WithSession(g, SESSION, InstallSpace(g.sessions[SESSION], CHILD)), None)
  {
    ChildFits(g.sessions, config);
  }

  /** Room for the child beside the root, its anchor in the root. */
  lemma ChildFits(ss: Sessions, config: CoreConfig)
    requires Roomy(config) && SESSION in ss && ss[SESSION].spaces.Keys == {1} && |ss[SESSION].spaces| == 1
             && ss[SESSION].tombstones == map[]
    requires 1 in ss[SESSION].entities && ss[SESSION].entities[1].space == 1
    ensures CheckInstall(ss, config, SESSION, CHILD).None?
  {
  }

  lemma OneSpace()
    ensures SESSION in Spawned().sessions
    ensures var s := Spawned().sessions[SESSION];
            && s.spaces == map[1 := ROOT] && |s.spaces| == 1 && s.tombstones == map[]
            && s.entities == map[1 := EntityRecord(1, 1, 1, 1, 1, None)]
  {
    assert Spawned().sessions[SESSION].spaces == map[1 := ROOT];
  }

  lemma TwoSpaces()
    ensures SESSION in Ready().sessions
    ensures var s := Ready().sessions[SESSION];
            && s.spaces == map[1 := ROOT, 2 := CHILD] && s.entities == map[1 := EntityRecord(1, 1, 1, 1, 1, None)]
  {
    OneSpace();
  }

  lemma OwnerListensToChild(config: CoreConfig)
    requires Roomy(config)
    ensures CheckSubscribe(Nested().connections, Nested().sessions, config, 1, SpaceKey(SESSION, 2)).None?
    ensures SpaceKey(SESSION, 2) !in Nested().connections[1].subscriptions
  {
    var conn := Nested().connections[1];
    assert conn.authenticated.value.grants.CanReadSpace(SpaceKey(SESSION, 2));
    assert conn.subscriptions == {SpaceKey(SESSION, 1)};
  }

  lemma OwnerRights()
    ensures 1 in Ready().connections
    ensures var conn := Ready().connections[1];
            && conn.authenticated == Some(Owner()) && conn.memberships == {SESSION}
            && SpaceKey(SESSION, 1) in conn.subscriptions && SpaceKey(SESSION, 2) in conn.subscriptions
  {
  }

  /** An owner with all rights, subscribed to both spaces, may move its entity between them. */
  lemma MoveAccepted(g: Graph)
    requires SESSION in g.sessions && g.sessions[SESSION].spaces == map[1 := ROOT, 2 := CHILD]
    requires g.sessions[SESSION].entities == map[1 := EntityRecord(1, 1, 1, 1, 1, None)]
    requires 1 in g.connections && g.connections[1].authenticated == Some(Owner())
             && g.connections[1].memberships == {SESSION}
    requires SpaceKey(SESSION, 1) in g.connections[1].subscriptions
             && SpaceKey(SESSION, 2) in g.connections[1].subscriptions
    ensures CheckTransition(g.connections, g.sessions, 1, SESSION, 1, 1, 1, 2, 1).None?
            && CanRelocate(g.sessions[SESSION], 1, 2, 1)
  {
    assert Everything().CanWriteSpace(SpaceKey(SESSION, 1)) && Everything().CanWriteSpace(SpaceKey(SESSION, 2));
    assert Everything().CanWriteSession(SESSION);
  }

  lemma AnchorMoves()
    ensures TransitionOutcome(Ready(), 1, SESSION, 1, 1, 1, 2, 1) == (Moved(), None)
    ensures CanRelocate(Ready().sessions[SESSION], 1, 2, 1)
  {
    TwoSpaces();
    OwnerRights();
    MoveAccepted(Ready());
  }

  /** Provision, install, connect and authenticate keep the tables consistent. */
  lemma KnownOk(config: CoreConfig)
    requires Roomy(config)
    ensures Inv(Known(), config)
  {
    NothingOk(config);
    ProvisionStep(Graph(map[], map[], 1, 1), config, SESSION);
    RootAccepted(config);
    InstallOutcomeStep(Provisioned(), config, SESSION, ROOT);
    ConnectStep(Rooted(), config);
    CredentialStep(Connected(), config, 1, NEW_CONNECTION.(authenticated := Some(Owner())));
  }

  lemma NothingOk(config: CoreConfig)
    ensures Inv(Graph(map[], map[], 1, 1), config)
  {
  }

  lemma ReadyOk(config: CoreConfig)
    requires Roomy(config)
    ensures Inv(Ready(), config)
  {
    KnownOk(config);
    OwnerJoins(config);
    JoinStep(Known(), config, 1, SESSION, 0);
    OwnerListens(config);
    SubscribeStep(Joined(), config, 1, SpaceKey(SESSION, 1));
    OwnerSpawns(config);
    SpawnOutcomeStep(Listening(), config, 1, SpaceKey(SESSION, 1), 1);
    ChildAccepted(config);
    InstallOutcomeStep(Spawned(), config, SESSION, CHILD);
    OwnerListensToChild(config);
    SubscribeStep(Nested(), config, 1, SpaceKey(SESSION, 2));
  }

  /** A transition changes no space and puts the entity where it was sent. */
  lemma TransitionTables(g: Graph, sk: SessionKey, e: nat, space: nat, epoch: nat)
    requires sk in g.sessions && e in g.sessions[sk].entities
    ensures var g' := Transition(g, sk, e, space, epoch);
            && sk in g'.sessions && g'.sessions[sk].spaces == g.sessions[sk].spaces
            && e in g'.sessions[sk].entities && g'.sessions[sk].entities[e].space == space
  {
  }

  /** The advance is accepted, reports that there is no such space, and the space, which was there, is gone. */
  ghost predicate FailsAfterChange(g: Graph, sk: SessionKey, space: nat, epoch: nat) {
    && CheckAdvance(g.sessions, sk, space, epoch).None? && sk in g.sessions && space in g.sessions[sk].spaces
    && var (g', e) := AdvanceOutcome(g, sk, space, epoch);
       e == Some(SpaceNotFound(SpaceKey(sk, space))) && sk in g'.sessions && space !in g'.sessions[sk].spaces
  }

  lemma AnchoredFails(g: Graph, sk: SessionKey, space: nat, epoch: nat)
    requires CheckAdvance(g.sessions, sk, space, epoch).None? && AnchoredIn(g.sessions[sk], space, space)
    ensures FailsAfterChange(g, sk, space, epoch)
  {
    AnchorInsideFails(g, sk, space, epoch);
    AdvanceFailsExactly(g, sk, space, epoch);
  }

  /** Provision, install, connect, authenticate, join, subscribe, spawn, install the child, subscribe, move
      the anchor into the child. In this reachable state the advance of the child fails after its change. */
  lemma AdvanceIsNotAtomic(config: CoreConfig)
    requires Roomy(config)
    ensures Inv(Moved(), config) && FailsAfterChange(Moved(), SESSION, 2, 2)
  {
    ReadyOk(config);
    AnchorMoves();
    TransitionStep(Ready(), config, SESSION, 1, 2, 1);
    TwoSpaces();
    TransitionTables(Ready(), SESSION, 1, 2, 1);
    AnchoredFails(Moved(), SESSION, 2, 2);
  }
}
