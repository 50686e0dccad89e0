/** Changing the publish budget of a session while members are connected. */
module RatePolicy {
  import opened Model
  import opened RateLimit
  import opened SessionGraph
  import opened Commands
  import opened CommandInvariants
  import opened Epochs
  import opened Publishing
  import opened Checks
  import opened CoreSteps

  /** The budget already spent survives; only the ceiling changes. */
  function Configured(conn: Connection, sk: SessionKey, policy: Option<Policy>): Connection {
    if sk in conn.sessionLimiters
    then conn.(sessionLimiters := conn.sessionLimiters[sk := conn.sessionLimiters[sk].Configure(policy)])
    else conn
  }

  ghost function ConfigureAll(cs: Connections, sk: SessionKey, policy: Option<Policy>): Connections {
    map c | c in cs :: Configured(cs[c], sk, policy)
  }

  ghost function SetRateLimit(g: Graph, sk: SessionKey, policy: Option<Policy>): Graph
    requires sk in g.sessions
  {
    WithSession(g.(connections := ConfigureAll(g.connections, sk, policy)), sk, g.sessions[sk].(rateLimit := policy))
  }

  method ConfigureConnections(cs: Connections, sk: SessionKey, policy: Option<Policy>) returns (cs': Connections)
    ensures cs' == ConfigureAll(cs, sk, policy)
  {
    cs' := cs;
    var rest := cs.Keys;
    while rest != {}
      invariant rest <= cs.Keys
      invariant cs' == map c | c in cs :: if c in rest then cs[c] else Configured(cs[c], sk, policy)
    {
      var c :| c in rest;
      rest := rest - {c};
      cs' := cs'[c := Configured(cs'[c], sk, policy)];
    }
  }

  lemma ConfiguredBudget(conn: Connection, config: CoreConfig, sk: SessionKey, policy: Option<Policy>)
    requires BudgetOk(conn, config)
    ensures BudgetOk(Configured(conn, sk, policy), config)
  {
    assert Configured(conn, sk, policy).sessionLimiters.Keys == conn.sessionLimiters.Keys;
  }

  lemma ConfigureKeepsLinks(g: Graph, sk: SessionKey, policy: Option<Policy>)
    requires LinksOk(g)
    ensures LinksOk(g.(connections := ConfigureAll(g.connections, sk, policy)))
  {
    SameTiesKeepLinks(g, g.(connections := ConfigureAll(g.connections, sk, policy)));
  }

  lemma ConfigureKeepsQueues(g: Graph, config: CoreConfig, sk: SessionKey, policy: Option<Policy>)
    requires QueuesOk(g, config)
    ensures QueuesOk(g.(connections := ConfigureAll(g.connections, sk, policy)), config)
  {
    var g' := g.(connections := ConfigureAll(g.connections, sk, policy));
    forall i, m | i in g'.connections && g'.connections[i].outbound.Holds(m) ensures Deliverable(g', i, m) {
      assert Deliverable(g, i, m);
    }
  }

  lemma ConfigureKeepsBudgets(g: Graph, config: CoreConfig, sk: SessionKey, policy: Option<Policy>)
    requires BudgetsOk(g, config)
    ensures BudgetsOk(g.(connections := ConfigureAll(g.connections, sk, policy)), config)
  {
    forall c | c in g.connections ensures BudgetOk(Configured(g.connections[c], sk, policy), config) {
      ConfiguredBudget(g.connections[c], config, sk, policy);
    }
  }

  lemma ConfigureStep(g: Graph, config: CoreConfig, sk: SessionKey, policy: Option<Policy>)
    requires Inv(g, config)
    ensures Advances(g, config, g.(connections := ConfigureAll(g.connections, sk, policy)))
  {
    ConfigureKeepsLinks(g, sk, policy);
    ConfigureKeepsQueues(g, config, sk, policy);
    ConfigureKeepsBudgets(g, config, sk, policy);
    SameSessionsLater(g, g.(connections := ConfigureAll(g.connections, sk, policy)));
  }

  lemma PolicyOk(s: Session, config: CoreConfig, policy: Option<Policy>)
    requires SessionOk(s, config)
    ensures SessionOk(s.(rateLimit := policy), config) && Extends(s, s.(rateLimit := policy))
  {
    SameStructure(s, s.(rateLimit := policy));
    PolicyKeys(s, policy);
  }

  lemma PolicyKeys(s: Session, policy: Option<Policy>)
    requires KeysOk(s)
    ensures KeysOk(s.(rateLimit := policy))
  {
  }

  function CheckRate(ss: Sessions, sk: SessionKey, policy: Option<Policy>): Option<CoreError> {
    if !NonZeroSession(sk) then Some(ReservedZeroId)
    else if policy.Some? && !policy.value.Valid() then Some(InvalidConfiguration)
    else if sk !in ss then Some(SessionNotFound(sk))
    else None
  }

  lemma RateOutcomeStep(g: Graph, config: CoreConfig, sk: SessionKey, policy: Option<Policy>, g': Graph)
    requires Inv(g, config) && g' == if CheckRate(g.sessions, sk, policy).Some? then g else SetRateLimit(g, sk, policy)
    ensures Advances(g, config, g')
  {
    if CheckRate(g.sessions, sk, policy).Some? { NoStep(g, config); } else { SetRateLimitStep(g, config, sk, policy); }
  }

  lemma SetRateLimitStep(g: Graph, config: CoreConfig, sk: SessionKey, policy: Option<Policy>)
    requires Inv(g, config) && sk in g.sessions
    ensures Advances(g, config, SetRateLimit(g, sk, policy))
  {
    ConfigureStep(g, config, sk, policy);
    var g1 := g.(connections := ConfigureAll(g.connections, sk, policy));
    SessionOf(g1, config, sk);
    PolicyOk(g1.sessions[sk], config, policy);
    ExtendStep(g1, config, sk, g1.sessions[sk].(rateLimit := policy));
    Chain(g, config, g1, SetRateLimit(g, sk, policy));
  }
}
