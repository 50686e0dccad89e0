/** Removing a whole session, in the graph and in the lease ledger. */
module Teardown {
  import opened Model
  import opened SessionGraph
  import opened Epochs
  import opened Ledgers
  import opened Rosters

  // ------------------------------------------------------------------ the graph

  function DropSession(g: Graph, sk: SessionKey): Graph { g.(sessions := g.sessions - {sk}) }

  ghost predicate Deserted(g: Graph, sk: SessionKey) { sk in g.sessions ==> g.sessions[sk].members == {} }

  /** A session without members holds no entity, and no connection is tied to it. */
  lemma DesertedIsEmpty(g: Graph, sk: SessionKey)
    requires LinksOk(g) && Deserted(g, sk)
    ensures forall c | c in g.connections :: sk !in g.connections[c].memberships
    ensures forall c, k | c in g.connections && k in g.connections[c].subscriptions :: k.session != sk
    ensures sk in g.sessions ==> g.sessions[sk].entities == map[]
  {
  }

  lemma DropKeepsCounts(g: Graph, sk: SessionKey)
    requires CountsOk(g) && (sk in g.sessions ==> g.sessions[sk].entities == map[])
    ensures CountsOk(DropSession(g, sk))
  {
    forall c | c in g.connections ensures Owned(DropSession(g, sk), c) == Owned(g, c) {}
  }

  lemma DropKeepsLinks(g: Graph, sk: SessionKey)
    requires LinksOk(g) && Deserted(g, sk)
    ensures LinksOk(DropSession(g, sk))
  {
    DesertedIsEmpty(g, sk);
    DropKeepsCounts(g, sk);
  }

  lemma DropKeepsQueues(g: Graph, config: CoreConfig, sk: SessionKey)
    requires QueuesOk(g, config)
    requires forall c, k | c in g.connections && k in g.connections[c].subscriptions :: k.session != sk
    ensures QueuesOk(DropSession(g, sk), config)
  {
    var g' := DropSession(g, sk);
    forall c, m | c in g.connections && g.connections[c].outbound.Holds(m) ensures Deliverable(g', c, m) {
      assert Deliverable(g, c, m) && m.Space().session != sk;
    }
  }

  /** Dropping a session that nobody is a member of keeps every table consistent. */
  lemma DropKeepsInv(g: Graph, config: CoreConfig, sk: SessionKey)
    requires Inv(g, config) && Deserted(g, sk)
    ensures Inv(DropSession(g, sk), config)
  {
    DesertedIsEmpty(g, sk);
    DropKeepsLinks(g, sk);
    DropKeepsQueues(g, config, sk);
  }

  /** Dropping a session keeps the tables consistent exactly when nobody is a member of it. */
  lemma DropExactly(g: Graph, config: CoreConfig, sk: SessionKey)
    requires Inv(g, config)
    ensures Inv(DropSession(g, sk), config) <==> Deserted(g, sk)
  {
    if Deserted(g, sk) {
      DropKeepsInv(g, config, sk);
    } else {
      DropBreaks(g, sk);
    }
  }

  lemma DropBreaks(g: Graph, sk: SessionKey)
    requires MembersKnown(g) && !Deserted(g, sk)
    ensures !MembershipsKnown(DropSession(g, sk))
  {
    var c :| c in g.sessions[sk].members;
    assert c in DropSession(g, sk).connections && sk in DropSession(g, sk).connections[c].memberships;
  }

  lemma DropLater(g: Graph, g': Graph, sk: SessionKey)
    requires LaterGraph(g, g')
    ensures LaterGraph(DropSession(g, sk), DropSession(g', sk))
  {
  }

  /** Dropping the same session before or after: the others are served all the same. */
  lemma DropServes(g: Graph, g': Graph, sk: SessionKey)
    requires Serves(g, g')
    ensures Serves(DropSession(g, sk), DropSession(g', sk))
  {
    DropLater(g, g', sk);
    var ss, ss' := g.sessions - {sk}, g'.sessions - {sk};
    assert ss.Keys == g.sessions.Keys - {sk} && ss'.Keys == g'.sessions.Keys - {sk};
    forall k | k in ss ensures FurnishedAt(ss, ss', k) { assert FurnishedAt(g.sessions, g'.sessions, k); }
  }

  /** Who is a member of the session, in the graph and on the roster. */
  lemma DesertedRoster(g: Graph, sk: SessionKey)
    requires MembersKnown(g) && MembershipsKnown(g)
    ensures Deserted(g, sk) <==> forall h | h in RosterOf(g).members :: h.1 != sk
  {
    if h :| h in RosterOf(g).members && h.1 == sk {
      assert sk in g.sessions && h.0 in g.sessions[sk].members;
    } else if !Deserted(g, sk) {
      var c :| c in g.sessions[sk].members;
      OnRoster(g, c, sk);
    }
  }

  lemma OnRoster(g: Graph, c: nat, sk: SessionKey)
    requires c in g.connections && sk in g.connections[c].memberships
    ensures (c, sk) in RosterOf(g).members
  {
  }

  // ------------------------------------------------------------------ the ledger

  function Elsewhere<V>(m: map<Holder, V>, sk: SessionKey): map<Holder, V> { map h | h in m && h.1 != sk :: m[h] }

  function DropScope(l: Ledger, sk: SessionKey): Ledger {
    Ledger(l.controllers - {sk}, Elsewhere(l.pending, sk), Elsewhere(l.bound, sk), Elsewhere(l.tickets, sk))
  }

  lemma DropBooks(cs: Controllers, held: Holdings, principals: map<nat, nat>, sk: SessionKey)
    requires Books(cs, held, principals)
    ensures Books(cs - {sk}, Elsewhere(held, sk), principals)
  {
    var cs', held' := cs - {sk}, Elsewhere(held, sk);
    forall k, id | k in cs' && id in cs'[k].state.active ensures exists c :: HeldBy(held', k, id, c) {
      var c :| HeldBy(held, k, id, c);
      assert HeldBy(held', k, id, c);
    }
  }

  lemma DropControllers(cs: Controllers, sk: SessionKey)
    requires ControllersOk(cs)
    ensures ControllersOk(cs - {sk})
  {
    forall k | k in cs - {sk} ensures ControllerOk((cs - {sk})[k], k) { assert ControllerOk(cs[k], k); }
  }

  lemma DropMembers(l: Ledger, members: set<Holder>, sk: SessionKey)
    requires BoundMembers(l, members)
    ensures BoundMembers(DropScope(l, sk), members)
  {
  }

  lemma DropHeld(l: Ledger, sk: SessionKey)
    requires Apart(l)
    ensures DropScope(l, sk).Held() == Elsewhere(l.Held(), sk) && Apart(DropScope(l, sk))
  {
  }

  /** Forgetting a session's controller together with all that was held there keeps the books balanced. */
  lemma DropKeepsLedger(l: Ledger, r: Roster, sk: SessionKey)
    requires LedgerOk(l, r)
    ensures LedgerOk(DropScope(l, sk), r)
  {
    DropHeld(l, sk);
    DropControllers(l.controllers, sk);
    DropBooks(l.controllers, l.Held(), r.principals, sk);
    DropMembers(l, r.members, sk);
  }
}
