/** The core together with its lease ledger. Commands that admit, bind, leave or lose a connection keep
    the ledger's books balanced with the controllers and the memberships. */
module AdmittedCores {
  import opened Model
  import opened SessionGraph
  import opened Commands
  import opened Publishing
  import opened Epochs
  import opened Checks
  import opened CoreSteps
  import opened PublishPipeline
  import opened Outcomes
  import opened Delivery
  import opened Core
  import opened Admission
  import opened AdmissionInvariants
  import opened AdmissionControllers
  import opened Ledgers
  import opened Rosters
  import opened Teardown
  import opened CommandLaws

  /** Who may ask for admission to a session. */
  function CheckRequest(cs: Connections, c: nat, sk: SessionKey): Option<CoreError> {
    if c == 0 || !NonZeroSession(sk) then Some(ReservedZeroId)
    else if CheckPrincipal(cs, c).Some? then CheckPrincipal(cs, c)
    else if !cs[c].authenticated.value.grants.CanReadSession(sk) then Some(AccessDenied)
    else None
  }

  /** Whether a connection may turn a lease into a membership. */
  function CheckLease(cs: Connections, l: Ledger, c: nat, sk: SessionKey, lease: Lease): Option<CoreError> {
    if c == 0 || !NonZeroSession(sk) then Some(ReservedZeroId)
    else if CheckPrincipal(cs, c).Some? then CheckPrincipal(cs, c)
    else CheckBind(l, (c, sk), cs[c].authenticated.value.id, lease)
  }

  /** Admission may be asked for by whoever could read the session. */
  lemma RequestAnswers(cs: Connections, c: nat, sk: SessionKey)
    ensures CheckRequest(cs, c, sk).None?
            <==> Acts(cs, c) && Named(sk) && ReadsSession(cs[c].authenticated.value.grants, sk)
  {
  }

  /** A connection may join on exactly the lease it holds. */
  lemma LeaseExactly(g: Graph, l: Ledger, c: nat, sk: SessionKey, lease: Lease)
    requires LedgerOk(l, RosterOf(g))
    ensures CheckLease(g.connections, l, c, sk, lease).None?
            <==> Acts(g.connections, c) && Named(sk) && l.LeaseOf((c, sk)) == Some(lease)
  {
    LeaseByBinding(g.connections, l, c, sk, lease);
    if Acts(g.connections, c) && Named(sk) {
      PrincipalKnown(g, c);
      BindsExactly(l, RosterOf(g), (c, sk), lease);
    }
  }

  lemma LeaseByBinding(cs: Connections, l: Ledger, c: nat, sk: SessionKey, lease: Lease)
    ensures CheckLease(cs, l, c, sk, lease).None? ==> Acts(cs, c) && Named(sk)
    ensures Acts(cs, c) && Named(sk)
            ==> CheckLease(cs, l, c, sk, lease) == CheckBind(l, (c, sk), cs[c].authenticated.value.id, lease)
  {
  }

  lemma PrincipalKnown(g: Graph, c: nat)
    requires CheckPrincipal(g.connections, c).None?
    ensures c in RosterOf(g).principals && RosterOf(g).principals[c] == g.connections[c].authenticated.value.id
  {
  }

  /** Whoever was admitted to ask again holds a lease that passes its checks. */
  lemma OwnLeasePasses(g: Graph, l: Ledger, c: nat, sk: SessionKey)
    requires LedgerOk(l, RosterOf(g)) && CheckRequest(g.connections, c, sk).None? && l.LeaseOf((c, sk)).Some?
    ensures CheckLease(g.connections, l, c, sk, l.LeaseOf((c, sk)).value).None?
  {
    HeldLeaseBinds(l, RosterOf(g), (c, sk));
    PrincipalKnown(g, c);
  }

  /** Growing the roster of principals is harmless. */
  lemma PrincipalsGrow(l: Ledger, r: Roster, principals: map<nat, nat>)
    requires LedgerOk(l, r) && forall c | c in r.principals :: c in principals && principals[c] == r.principals[c]
    ensures LedgerOk(l, r.(principals := principals))
  {
    PrincipalsGrowBooks(l.controllers, l.Held(), r.principals, principals);
  }

  lemma PrincipalsGrowBooks(cs: Controllers, held: Holdings, principals: map<nat, nat>, principals': map<nat, nat>)
    requires Books(cs, held, principals) && forall c | c in principals ::
             c in principals' && principals'[c] == principals[c]
    ensures Books(cs, held, principals')
  {
  }

  /** A member more in a session without admission is none of the ledger's business. */
  lemma PlainJoin(l: Ledger, r: Roster, h: Holder)
    requires LedgerOk(l, r) && h.1 !in l.controllers
    ensures LedgerOk(l, r.(members := r.members + {h}))
  {
    PlainJoinMembers(l, r.members, h);
  }

  lemma PlainJoinMembers(l: Ledger, members: set<Holder>, h: Holder)
    requires BoundMembers(l, members) && h.1 !in l.controllers
    ensures BoundMembers(l, members + {h})
  {
  }

  /** A new controller of a session nobody has joined. */
  lemma Configured(l: Ledger, r: Roster, sk: SessionKey, c: Tables)
    requires LedgerOk(l, r) && sk !in l.controllers && ControllerOk(c, sk) && c.state.active == map[]
    requires forall h | h in r.members :: h.1 != sk
    ensures LedgerOk(l.(controllers := l.controllers[sk := c]), r)
  {
    ConfiguredControllers(l.controllers, sk, c);
    ConfiguredBooks(l.controllers, l.Held(), r.principals, sk, c);
    ConfiguredMembers(l, r.members, sk, c);
  }

  /** A member from before has no lease on the books. */
  lemma ConfiguredExactly(l: Ledger, r: Roster, sk: SessionKey, c: Tables)
    requires LedgerOk(l, r) && sk !in l.controllers && ControllerOk(c, sk) && c.state.active == map[]
    ensures LedgerOk(l.(controllers := l.controllers[sk := c]), r) <==> forall h | h in r.members :: h.1 != sk
  {
    if h :| h in r.members && h.1 == sk {
      Leaseless(l, r, h);
      assert !BoundMembers(l.(controllers := l.controllers[sk := c]), r.members);
    } else {
      Configured(l, r, sk, c);
    }
  }

  lemma Leaseless(l: Ledger, r: Roster, h: Holder)
    requires Books(l.controllers, l.Held(), r.principals) && h.1 !in l.controllers
    ensures h !in l.bound
  {
    assert forall x | x in l.bound :: x in l.Held();
  }

  method ConfigureIn(l: Ledger, ghost r: Roster, ss: Sessions, sk: SessionKey, c: Tables)
    returns (l': Ledger, e: Option<CoreError>)
    requires LedgerOk(l, r) && ControllerOk(c, sk) && c.state.active == map[]
    ensures e.None? <==> NonZeroSession(sk) && sk in ss && sk !in l.controllers
    ensures l' == if e.Some? then l else l.(controllers := l.controllers[sk := c])
    ensures LedgerOk(l', r) <==> e.Some? || forall h | h in r.members :: h.1 != sk
  {
    if !NonZeroSession(sk) { return l, Some(ReservedZeroId); }
    if sk !in ss { return l, Some(SessionNotFound(sk)); }
    if sk in l.controllers { return l, Some(InvalidConfiguration); }
    ConfiguredExactly(l, r, sk, c);
    return l.(controllers := l.controllers[sk := c]), None;
  }

  lemma ConfiguredControllers(cs: Controllers, sk: SessionKey, c: Tables)
    requires ControllersOk(cs) && sk !in cs && ControllerOk(c, sk)
    ensures ControllersOk(cs[sk := c])
  {
    var cs' := cs[sk := c];
    forall k | k in cs' ensures ControllerOk(cs'[k], k) { if k != sk { assert ControllerOk(cs[k], k); } }
  }

  lemma ConfiguredBooks(cs: Controllers, held: Holdings, principals: map<nat, nat>, sk: SessionKey, c: Tables)
    requires Books(cs, held, principals) && sk !in cs && c.state.active == map[]
    ensures Books(cs[sk := c], held, principals)
  {
    var cs' := cs[sk := c];
    forall k, id | k in cs' && id in cs'[k].state.active ensures exists x :: HeldBy(held, k, id, x) {
      assert id in cs[k].state.active;
    }
  }

  lemma ConfiguredMembers(l: Ledger, members: set<Holder>, sk: SessionKey, c: Tables)
    requires BoundMembers(l, members) && sk !in l.controllers && forall h | h in members :: h.1 != sk
    ensures BoundMembers(l.(controllers := l.controllers[sk := c]), members)
  {
  }

  lemma EmptyTables(sk: SessionKey, policy: QueuePolicy, capacity: nat, revision: nat)
    requires capacity <= U32_MAX
    ensures ControllerOk(Tables(NewState(sk, policy, capacity, revision), [], map[]), sk)
  {
    NewStateOk(sk, policy, capacity, revision);
  }

  lemma AuthenticatedRoster(g: Graph, g': Graph, c: nat, principal: Option<Principal>)
    requires c in g.connections && g.connections[c].authenticated.None?
    requires g' == WithConnection(g, c, g.connections[c].(authenticated := principal))
    ensures RosterOf(g') == RosterOf(g).(principals := PrincipalsOf(g'))
    ensures forall i | i in PrincipalsOf(g) :: i in PrincipalsOf(g') && PrincipalsOf(g')[i] == PrincipalsOf(g)[i]
  {
    forall h ensures h in MembersOf(g') <==> h in MembersOf(g) {}
  }

  lemma ConnectedRoster(g: Graph)
    requires g.nextConnection !in g.connections
    ensures RosterOf(Connect(g)) == RosterOf(g)
  {
    assert PrincipalsOf(Connect(g)) == PrincipalsOf(g);
    forall h ensures h in MembersOf(Connect(g)) <==> h in MembersOf(g) {}
  }

  /** The answer to asking and joining in one turn: the answer to the request, unless a lease was granted or pending and
      the join is refused. */
  ghost function AdmitAnswer(g: Graph, config: CoreConfig, l: Ledger, c: nat, sk: SessionKey, key: Option<Key>,
                             now: nat): Result<Decision, CoreError> {
    var d, e := RequestAnswer(g, config, l, c, sk, key, now), JoinOutcome(g, config, c, sk, now).1;
    if d.Ok? && d.value.AdmittedNow? && (c, sk) !in l.bound && e.Some? then Err(e.value) else d
  }

  ghost predicate Ticketless(l: Ledger) { l.pending.Keys !! l.tickets.Keys }

  lemma LostTicketless(l: Ledger, l': Ledger, c: nat)
    requires Ticketless(l) && NoneOf(l'.pending, c) && OthersKeep(l.pending, l'.pending, c)
             && OthersKeep(l.tickets, l'.tickets, c)
    ensures Ticketless(l')
  {
    forall h | h in l'.pending ensures h !in l'.tickets { assert h.0 != c && h in l.pending; }
  }

  // ------------------------------------------------------------------ claims

  /** A claimed lease is held pending until the join decides. */
  method ClaimTicket(l: Ledger, ghost r: Roster, h: Holder, ticket: nat, principal: nat, now: nat)
    returns (l': Ledger, lease: Option<Lease>)
    requires LedgerOk(l, r) && Ticketless(l) && h !in l.bound && Claims(l, r, h, ticket, principal)
    ensures LedgerOk(l', r) && l'.bound == l.bound && l'.tickets == l.tickets && KeepsAll(l.controllers, l'.controllers)
    ensures l'.pending == if lease.Some? then l.pending[h := lease.value] else l.pending
    ensures lease.Some? ==> h.1 in l'.controllers && ClaimedWith(l'.controllers[h.1], ticket, lease.value)
    ensures lease == Yielded(l.controllers[h.1].state, ticket, now)
  {
    var c';
    c', lease := ClaimAt(l.controllers, h.1, ticket, principal, now);
    if lease.Some? {
      Ledgers.Grants(l, r, h, c', lease.value);
      l' := l.(controllers := l.controllers[h.1 := c'], pending := l.pending[h := lease.value]);
    } else {
      Idle(l, r, h.1, c');
      l' := l.(controllers := l.controllers[h.1 := c']);
    }
  }

  /** The join failed: lease and ticket are gone, as if never claimed. */
  method UndoClaim(l: Ledger, ghost r: Roster, h: Holder, ticket: nat, now: nat) returns (l': Ledger)
    requires LedgerOk(l, r) && h in l.pending && h.1 in l.controllers
             && ClaimedWith(l.controllers[h.1], ticket, l.pending[h])
    ensures LedgerOk(l', r) && l'.bound == l.bound && l'.pending == l.pending - {h} && l'.tickets == l.tickets - {h}
    ensures KeepsAll(l.controllers, l'.controllers)
  {
    var c' := RollbackAt(l.controllers, h.1, ticket, l.pending[h], now);
    ReleasesPending(l, r, h, c');
    var released := l.(controllers := l.controllers[h.1 := c'], pending := l.pending - {h});
    l' := released.(tickets := released.tickets - {h});
    TicketsFree(released, l', r);
  }

  /** Granting and releasing the same lease leaves the active leases as they were. */
  lemma Undone(cs: Controllers, sk: SessionKey, c1: Tables, principal: nat, lease: Lease, c2: Tables)
    requires sk in cs && Works(cs, sk, c1) && Granted(cs[sk], c1, principal, lease)
    requires Works(cs[sk := c1], sk, c2) && c2.state.active == c1.state.active - {lease.id}
    ensures Works(cs, sk, c2) && c2.state.active == cs[sk].state.active
  {
    assert cs[sk := c1][sk := c2] == cs[sk := c2];
    KeepsAllTransitive(cs, cs[sk := c1], cs[sk := c2]);
  }

  /** A holder that is bound already cannot bind a second lease: the claim is undone at once. */
  method RefuseSecond(l: Ledger, ghost r: Roster, h: Holder, ticket: nat, principal: nat, now: nat)
    returns (l': Ledger, claimed: bool)
    requires LedgerOk(l, r) && Ticketless(l) && Claims(l, r, h, ticket, principal)
    ensures LedgerOk(l', r) && Ticketless(l') && SameHoldings(l, l') && KeepsAll(l.controllers, l'.controllers)
    ensures l'.tickets == if claimed then l.tickets - {h} else l.tickets
    ensures claimed <==> Yielded(l.controllers[h.1].state, ticket, now).Some?
  {
    var c', lease := ClaimAt(l.controllers, h.1, ticket, principal, now);
    claimed := lease.Some?;
    if claimed {
      ghost var granted := c';
      c' := RollbackAt(l.controllers[h.1 := c'], h.1, ticket, lease.value, now);
      Undone(l.controllers, h.1, granted, principal, lease.value, c');
    }
    Idle(l, r, h.1, c');
    var idle := l.(controllers := l.controllers[h.1 := c']);
    l' := if claimed then idle.(tickets := idle.tickets - {h}) else idle;
    TicketsFree(idle, l', r);
  }

  /** The answer to a request for admission. */
  ghost function RequestAnswer(g: Graph, config: CoreConfig, l: Ledger, c: nat, sk: SessionKey, key: Option<Key>,
                               now: nat): Result<Decision, CoreError> {
    var e := CheckRequest(g.connections, c, sk);
    if e.Some? then Err(e.value)
    else Decided(l, (c, sk), g.connections[c].authenticated.value.id, key, |g.connections[c].memberships|,
                 config.maxMemberships, now)
  }

  /** The controller is asked, and the ledger takes down its answer, unless the request was refused or the holder has a
      lease or a ticket already. */
  ghost predicate Requested(g: Graph, config: CoreConfig, l: Ledger, c: nat, sk: SessionKey, key: Option<Key>, now: nat,
                            l': Ledger, d: Result<Decision, CoreError>) {
    if CheckRequest(g.connections, c, sk).Some?
       || Ledgers.Known(l, (c, sk), |g.connections[c].memberships|, config.maxMemberships).Some?
    then l' == l
    else Asked(l, l', (c, sk), g.connections[c].authenticated.value.id, key, now, d)
  }

  /** What a claim answers without asking the controller, if it does. */
  function CheckClaim(cs: Connections, l: Ledger, c: nat, sk: SessionKey,
                      ticket: nat): Option<Result<bool, CoreError>> {
    if CheckRequest(cs, c, sk).Some? then Some(Err(CheckRequest(cs, c, sk).value))
    else if (c, sk) !in l.tickets || l.tickets[(c, sk)] != ticket then Some(Ok(false))
    else if sk !in l.controllers then Some(Err(AdmissionLeaseRequired(sk)))
    else if ticket !in l.controllers[sk].state.tickets
            || l.controllers[sk].state.tickets[ticket].principal != cs[c].authenticated.value.id then Some(Ok(false))
    else None
  }

  /** The holder's own ticket at a session with admission. */
  ghost predicate Claims(l: Ledger, r: Roster, h: Holder, ticket: nat, principal: nat) {
    && h.0 in r.principals && r.principals[h.0] == principal && h in l.tickets && h.1 in l.controllers
    && ticket in l.controllers[h.1].state.tickets && l.controllers[h.1].state.tickets[ticket].principal == principal
  }

  lemma ClaimReady(g: Graph, l: Ledger, c: nat, sk: SessionKey, ticket: nat)
    requires CheckClaim(g.connections, l, c, sk, ticket).None?
    ensures Claims(l, RosterOf(g), (c, sk), ticket, g.connections[c].authenticated.value.id)
  {
    PrincipalKnown(g, c);
  }

  ghost predicate SameHoldings(l: Ledger, l': Ledger) { l'.bound == l.bound && l'.pending == l.pending }

  lemma UndoneHoldings(l: Ledger, l': Ledger, h: Holder, lease: Lease)
    requires Ticketless(l) && h !in l.pending && l'.bound == l.bound
    requires l'.pending == l.pending[h := lease] - {h} && l'.tickets == l.tickets - {h}
    ensures SameHoldings(l, l') && Ticketless(l')
  {
    assert l.pending[h := lease] - {h} == l.pending;
  }

  lemma BoundTicketless(l: Ledger, l1: Ledger, l2: Ledger, h: Holder, lease: Lease)
    requires Ticketless(l) && l1.pending == l.pending[h := lease] && l1.tickets == l.tickets && Binding(l1, l2, h)
    ensures Ticketless(l2)
  {
    assert l2.pending.Keys <= l.pending.Keys;
  }

  /** A pending lease of `h`, if any, moved on; tickets stay. */
  ghost predicate Binding(l: Ledger, l': Ledger, h: Holder) {
    l'.tickets == l.tickets && l'.pending.Keys <= l.pending.Keys - {h}
  }

  lemma BindingTicketless(l: Ledger, l': Ledger, h: Holder)
    requires Ticketless(l) && Binding(l, l', h)
    ensures Ticketless(l')
  {
  }

  /** A join as the roster sees it. */
  method JoinGraph(core: WovenCore, c: nat, sk: SessionKey, now: nat) returns (e: Option<CoreError>)
    requires core.Valid()
    modifies core
    ensures core.Valid() && Serves(old(core.graph), core.graph)
    ensures (core.graph, e) == JoinOutcome(old(core.graph), core.config, c, sk, now)
    ensures e.None? ==> RosterOf(core.graph) == Enter(RosterOf(old(core.graph)), (c, sk))
    ensures e.Some? ==> RosterOf(core.graph) == RosterOf(old(core.graph))
  {
    ghost var g := core.graph;
    e := core.JoinSession(c, sk, now);
    JoinOutcomeRoster(g, core.config, c, sk, now);
    JoinServes(g, core.config, c, sk, now);
  }

  ghost function Enter(r: Roster, h: Holder): Roster { r.(members := r.members + {h}) }

  /** The pending lease of `h` is now the bound lease of a member. */
  ghost predicate BoundAs(l: Ledger, l': Ledger, r': Roster, h: Holder) {
    && h in l.pending && h in l'.bound && l'.bound[h] == l.pending[h] && h in r'.members && Binding(l, l', h)
  }

  /** Joins and, if that works, binds the pending lease. */
  method JoinAndBind(core: WovenCore, l: Ledger, c: nat, sk: SessionKey, now: nat)
    returns (e: Option<CoreError>, l': Ledger)
    requires core.Valid() && LedgerOk(l, RosterOf(core.graph)) && (c, sk) in l.pending
    modifies core
    ensures core.Valid() && Serves(old(core.graph), core.graph) && LedgerOk(l', RosterOf(core.graph))
    ensures e.Some? ==> l' == l && RosterOf(core.graph) == RosterOf(old(core.graph))
    ensures e.None? ==> BoundAs(l, l', RosterOf(core.graph), (c, sk))
    ensures l'.controllers == l.controllers && (core.graph, e) == JoinOutcome(old(core.graph), core.config, c, sk, now)
  {
    ghost var r := RosterOf(core.graph);
    e := JoinGraph(core, c, sk, now);
    if e.Some? { return e, l; }
    l' := BindIn(l, r, RosterOf(core.graph), (c, sk));
  }

  /** `h` is a member and `lease` is bound to it. */
  ghost predicate BoundTo(l: Ledger, l': Ledger, r': Roster, h: Holder, lease: Lease) {
    h in l'.bound && l'.bound[h] == lease && h in r'.members && Binding(l, l', h)
  }

  method JoinLease(core: WovenCore, l: Ledger, c: nat, sk: SessionKey, lease: Lease, now: nat)
    returns (e: Option<CoreError>, l': Ledger)
    requires core.Valid() && LedgerOk(l, RosterOf(core.graph))
    modifies core
    ensures core.Valid() && Serves(old(core.graph), core.graph) && LedgerOk(l', RosterOf(core.graph))
    ensures e.Some? ==> l' == l && RosterOf(core.graph) == RosterOf(old(core.graph))
    ensures e.None? ==> BoundTo(l, l', RosterOf(core.graph), (c, sk), lease)
    ensures l'.controllers == l.controllers
    ensures (core.graph, e) == LeaseOutcome(old(core.graph), core.config, l, c, sk, lease, now)
  {
    NoStep(core.graph, core.config);
    ServesSelf(core.graph);
    l' := l;
    e := CheckLease(core.graph.connections, l, c, sk, lease);
    if e.Some? { return; }
    LeaseChecked(core.graph.connections, l, c, sk, lease);
    if (c, sk) in l.bound {
      BoundIsMember(l, RosterOf(core.graph).members, (c, sk));
      NotPending(l, (c, sk));
      return;
    }
    e, l' := JoinAndBind(core, l, c, sk, now);
  }

  /** Joining on a lease: refused by its checks, nothing to do if it is bound, and otherwise what a join does. */
  ghost function LeaseOutcome(g: Graph, config: CoreConfig, l: Ledger, c: nat, sk: SessionKey, lease: Lease,
                              now: nat): (Graph, Option<CoreError>) {
    var e := CheckLease(g.connections, l, c, sk, lease);
    if e.Some? || (c, sk) in l.bound then (g, e) else JoinOutcome(g, config, c, sk, now)
  }

  lemma LeaseChecked(cs: Connections, l: Ledger, c: nat, sk: SessionKey, lease: Lease)
    requires CheckLease(cs, l, c, sk, lease).None?
    ensures l.LeaseOf((c, sk)) == Some(lease)
  {
  }

  ghost function Touched(s: State, ticket: nat, cancel: bool, now: nat): State {
    if cancel then Cancel(s, ticket, now).0 else Heartbeat(s, ticket, now)
  }

  /** A touch that is not the holder's to make changes nothing; any other is the controller's cancellation or
      heartbeat. */
  ghost predicate Touches(cs: Connections, l: Ledger, c: nat, sk: SessionKey, ticket: nat, cancel: bool, now: nat,
                          l': Ledger, r: Result<bool, CoreError>) {
    var known := CheckClaim(cs, l, c, sk, ticket);
    if known.Some? then l' == l && r == (if known.value.Ok? then Ok(false) else known.value)
    else
      && r == Ok(true) && sk in l.controllers
      && Turned(l.controllers, l'.controllers, sk, Touched(l.controllers[sk].state, ticket, cancel, now))
  }

  method TouchIn(l: Ledger, ghost r: Roster, sk: SessionKey, ticket: nat, cancel: bool, now: nat) returns (l': Ledger)
    requires LedgerOk(l, r) && sk in l.controllers
    ensures LedgerOk(l', r) && SameHoldings(l, l') && l'.tickets == l.tickets && KeepsAll(l.controllers, l'.controllers)
    ensures Turned(l.controllers, l'.controllers, sk, Touched(l.controllers[sk].state, ticket, cancel, now))
  {
    var c';
    if cancel { c' := CancelAt(l.controllers, sk, ticket, now); } else {
      c' := HeartbeatAt(l.controllers, sk, ticket, now);
    }
    Idle(l, r, sk, c');
    l' := l.(controllers := l.controllers[sk := c']);
  }

  /** A heartbeat or a cancellation, if the ticket is the connection's own. */
  method TouchOwn(l: Ledger, g: Graph, c: nat, sk: SessionKey, ticket: nat, cancel: bool, now: nat)
    returns (l': Ledger, r: Result<bool, CoreError>)
    requires LedgerOk(l, RosterOf(g))
    ensures LedgerOk(l', RosterOf(g)) && SameHoldings(l, l') && l'.tickets == l.tickets
            && KeepsAll(l.controllers, l'.controllers)
    ensures Touches(g.connections, l, c, sk, ticket, cancel, now, l', r)
  {
    KeepsAllSelf(l.controllers);
    var known := CheckClaim(g.connections, l, c, sk, ticket);
    if known.Some? { return l, if known.value.Ok? then Ok(false) else known.value; }
    ClaimReady(g, l, c, sk, ticket);
    l' := TouchIn(l, RosterOf(g), sk, ticket, cancel, now);
    r := Ok(true);
  }

  /** How a claim may end: bound and a member, or with memberships and leases as they were. */
  ghost predicate ClaimEnds(l: Ledger, r: Roster, l': Ledger, r': Roster, h: Holder, answer: Result<bool, CoreError>) {
    && LedgerOk(l', r') && Ticketless(l') && KeepsAll(l.controllers, l'.controllers)
    && (answer == Ok(true) ==> h in l'.bound && h in r'.members)
    && (answer.Err? ==> SameHoldings(l, l') && r' == r)
  }

  method ClaimFor(core: WovenCore, l: Ledger, c: nat, sk: SessionKey, ticket: nat, now: nat)
    returns (l': Ledger, r: Result<bool, CoreError>)
    requires core.Valid() && LedgerOk(l, RosterOf(core.graph)) && Ticketless(l)
    modifies core
    ensures core.Valid() && Serves(old(core.graph), core.graph)
    ensures ClaimEnds(l, old(RosterOf(core.graph)), l', RosterOf(core.graph), (c, sk), r)
    ensures r == ClaimAnswer(old(core.graph), core.config, l, c, sk, ticket, now)
  {
    var answer;
    l', answer := AnswerClaim(l, core.graph, core.config, c, sk, ticket, now);
    if answer.Some? {
      NoStep(core.graph, core.config);
      ServesSelf(core.graph);
      return l', answer.value;
    }
    l', r := FinishClaim(core, l, c, sk, ticket, core.graph.connections[c].authenticated.value.id, now);
  }

  /** What can be answered without a join: a claim that is not the holder's to make, or one by a holder that is
      bound already. */
  method AnswerClaim(l: Ledger, g: Graph, ghost config: CoreConfig, c: nat, sk: SessionKey, ticket: nat, now: nat)
    returns (l': Ledger, answer: Option<Result<bool, CoreError>>)
    requires LedgerOk(l, RosterOf(g)) && Ticketless(l)
    ensures answer.Some? ==> ClaimEnds(l, RosterOf(g), l', RosterOf(g), (c, sk), answer.value)
    ensures answer.None? <==> CheckClaim(g.connections, l, c, sk, ticket).None? && (c, sk) !in l.bound
    ensures answer.Some? ==> answer.value == ClaimAnswer(g, config, l, c, sk, ticket, now)
    ensures answer.None? ==> l' == l && Claims(l, RosterOf(g), (c, sk), ticket, g.connections[c].authenticated.value.id)
  {
    KeepsAllSelf(l.controllers);
    var known := CheckClaim(g.connections, l, c, sk, ticket);
    if known.Some? { return l, known; }
    ClaimReady(g, l, c, sk, ticket);
    if (c, sk) in l.bound {
      var claimed;
      l', claimed := RefuseSecond(l, RosterOf(g), (c, sk), ticket, g.connections[c].authenticated.value.id, now);
      return l', Some(if claimed then Err(InvalidAdmissionLease(sk)) else Ok(false));
    }
    return l, None;
  }

  /** A claim that has to be decided: no lease no membership, and otherwise what the join says. */
  ghost function FinishAnswer(g: Graph, config: CoreConfig, l: Ledger, c: nat, sk: SessionKey, ticket: nat,
                              now: nat): Result<bool, CoreError>
    requires sk in l.controllers
  {
    var e := JoinOutcome(g, config, c, sk, now).1;
    if Yielded(l.controllers[sk].state, ticket, now).None? then Ok(false)
    else if e.Some? then Err(e.value) else Ok(true)
  }

  /** The answer to a claim: whose it is not to make is told so, a holder that is bound gains nothing, and otherwise
      the offer and the join decide. */
  ghost function ClaimAnswer(g: Graph, config: CoreConfig, l: Ledger, c: nat, sk: SessionKey, ticket: nat,
                             now: nat): Result<bool, CoreError> {
    var known := CheckClaim(g.connections, l, c, sk, ticket);
    if known.Some? then known.value
    else if (c, sk) in l.bound
    then if Yielded(l.controllers[sk].state, ticket, now).Some? then Err(InvalidAdmissionLease(sk)) else Ok(false)
    else FinishAnswer(g, config, l, c, sk, ticket, now)
  }

  method FinishClaim(core: WovenCore, l: Ledger, c: nat, sk: SessionKey, ticket: nat, principal: nat, now: nat)
    returns (l': Ledger, r: Result<bool, CoreError>)
    requires core.Valid() && LedgerOk(l, RosterOf(core.graph)) && Ticketless(l) && (c, sk) !in l.bound
    requires Claims(l, RosterOf(core.graph), (c, sk), ticket, principal) && Acts(core.graph.connections, c) && Named(sk)
    modifies core
    ensures core.Valid() && Serves(old(core.graph), core.graph)
    ensures r == FinishAnswer(old(core.graph), core.config, l, c, sk, ticket, now)
    ensures ClaimEnds(l, old(RosterOf(core.graph)), l', RosterOf(core.graph), (c, sk), r)
  {
    NoStep(core.graph, core.config);
    ServesSelf(core.graph);
    var claimed, lease := ClaimTicket(l, RosterOf(core.graph), (c, sk), ticket, principal, now);
    if lease.None? { return claimed, Ok(false); }
    l', r := JoinClaimed(core, l, claimed, c, sk, ticket, lease.value, now);
  }

  /** The claimed lease is pending; the join decides whether it is bound or undone. */
  method JoinClaimed(core: WovenCore, ghost l: Ledger, claimed: Ledger, c: nat, sk: SessionKey, ticket: nat,
                     lease: Lease, now: nat)
    returns (l': Ledger, r: Result<bool, CoreError>)
    requires core.Valid() && LedgerOk(claimed, RosterOf(core.graph)) && Ticketless(l) && (c, sk) in l.tickets
    requires (c, sk) !in l.bound && claimed.bound == l.bound && claimed.tickets == l.tickets
    requires claimed.pending == l.pending[(c, sk) := lease] && KeepsAll(l.controllers, claimed.controllers)
    requires sk in claimed.controllers && ClaimedWith(claimed.controllers[sk], ticket, lease)
    requires Acts(core.graph.connections, c) && Named(sk)
    modifies core
    ensures core.Valid() && Serves(old(core.graph), core.graph)
    ensures ClaimEnds(l, old(RosterOf(core.graph)), l', RosterOf(core.graph), (c, sk), r)
    ensures r == var e := JoinOutcome(old(core.graph), core.config, c, sk, now).1;
                 if e.Some? then Err(e.value) else Ok(true)
  {
    LeaseExactly(core.graph, claimed, c, sk, lease);
    var e;
    e, l' := JoinLease(core, claimed, c, sk, lease, now);
    if e.Some? {
      l' := UndoClaim(l', RosterOf(core.graph), (c, sk), ticket, now);
      UndoneHoldings(l, l', (c, sk), lease);
      KeepsAllTransitive(l.controllers, claimed.controllers, l'.controllers);
      return l', Err(e.value);
    }
    BoundTicketless(l, claimed, l', (c, sk), lease);
    r := Ok(true);
  }

  // ------------------------------------------------------------------ maintenance and capacity

  /** The controllers in `done` are past their expiry, the others as they were. */
  ghost predicate Maintained(cs: Controllers, cs': Controllers, done: set<SessionKey>, now: nat) {
    && cs'.Keys == cs.Keys && (forall sk | sk in cs && sk !in done :: cs'[sk] == cs[sk])
    && (forall sk {:trigger Expires(cs, cs', sk, now)} | sk in cs && sk in done :: Expires(cs, cs', sk, now))
  }

  ghost predicate Expires(cs: Controllers, cs': Controllers, sk: SessionKey, now: nat) {
    sk in cs && sk in cs' && cs'[sk].state == Expire(cs[sk].state, now)
  }

  lemma MaintainedNext(cs: Controllers, cs1: Controllers, done: set<SessionKey>, sk: SessionKey, c': Tables, now: nat)
    requires Maintained(cs, cs1, done, now) && sk in cs && sk !in done && c'.state == Expire(cs[sk].state, now)
    ensures Maintained(cs, cs1[sk := c'], done + {sk}, now)
  {
    var cs2 := cs1[sk := c'];
    assert cs2.Keys == cs1.Keys;
    forall k | k in cs && k in done + {sk} ensures Expires(cs, cs2, k, now) {
      if k != sk { assert Expires(cs, cs1, k, now); }
    }
  }

  method MaintainAt(cs: Controllers, sk: SessionKey, now: nat) returns (c': Tables)
    requires ControllersOk(cs) && sk in cs
    ensures Works(cs, sk, c') && c'.state == Expire(cs[sk].state, now) && c'.state.active == cs[sk].state.active
  {
    ControllerAt(cs, sk);
    ExpireOk(cs[sk].state, now);
    c' := AdmissionControllers.ExpireIn(cs[sk], now);
    WorksOf(cs, sk, c');
  }

  method MaintainNext(ghost l: Ledger, ghost r: Roster, l1: Ledger, ghost done: set<SessionKey>,
                      sk: SessionKey, now: nat)
    returns (l2: Ledger)
    requires LedgerOk(l1, r) && sk in l1.controllers && sk !in done
    requires Maintained(l.controllers, l1.controllers, done, now) && KeepsAll(l.controllers, l1.controllers)
    ensures LedgerOk(l2, r) && SameHoldings(l1, l2) && l2.tickets == l1.tickets
    ensures Maintained(l.controllers, l2.controllers, done + {sk}, now) && KeepsAll(l.controllers, l2.controllers)
  {
    var c' := MaintainAt(l1.controllers, sk, now);
    Idle(l1, r, sk, c');
    l2 := l1.(controllers := l1.controllers[sk := c']);
    MaintainedNext(l.controllers, l1.controllers, done, sk, c', now);
    KeepsAllTransitive(l.controllers, l1.controllers, l2.controllers);
  }

  method MaintainAll(l: Ledger, ghost r: Roster, now: nat) returns (l': Ledger)
    requires LedgerOk(l, r)
    ensures LedgerOk(l', r) && SameHoldings(l, l') && l'.tickets == l.tickets && KeepsAll(l.controllers, l'.controllers)
    ensures Maintained(l.controllers, l'.controllers, l'.controllers.Keys, now)
  {
    l' := l;
    KeepsAllSelf(l.controllers);
    var rest := l.controllers.Keys;
    ghost var done := {};
    while rest != {}
      invariant rest <= l.controllers.Keys && done == l.controllers.Keys - rest
      invariant LedgerOk(l', r) && SameHoldings(l, l') && l'.tickets == l.tickets
                && KeepsAll(l.controllers, l'.controllers)
      invariant Maintained(l.controllers, l'.controllers, done, now)
    {
      var sk :| sk in rest;
      l' := MaintainNext(l, r, l', done, sk, now);
      rest, done := rest - {sk}, done + {sk};
    }
  }

  function CheckCapacity(l: Ledger, sk: SessionKey): Option<CoreError> {
    if !NonZeroSession(sk) then Some(ReservedZeroId) else if sk !in l.controllers
       then Some(AdmissionLeaseRequired(sk)) else None
  }

  /** Only the controller of `sk` differs: it took the update. */
  ghost predicate Retuned(cs: Controllers, cs': Controllers, sk: SessionKey, capacity: nat, revision: nat, now: nat) {
    && sk in cs && sk in cs' && cs' == cs[sk := cs'[sk]]
    && cs'[sk].state == ApplyCapacity(cs[sk].state, capacity, revision, now) && Evolves(cs[sk].state, cs'[sk].state)
    && (revision > cs[sk].state.revision ==> cs'[sk].state.Limit() == capacity && cs'[sk].state.revision == revision)
  }

  method RetuneIn(l: Ledger, ghost r: Roster, sk: SessionKey, capacity: nat, revision: nat, now: nat)
    returns (l': Ledger, e: Option<CoreError>)
    requires LedgerOk(l, r) && capacity <= U32_MAX
    ensures LedgerOk(l', r) && SameHoldings(l, l') && l'.tickets == l.tickets
    ensures e == CheckCapacity(l, sk) && (e.Some? ==> l' == l)
    ensures e.None? ==> Retuned(l.controllers, l'.controllers, sk, capacity, revision, now)
  {
    l', e := l, CheckCapacity(l, sk);
    if e.None? {
      ControllerAt(l.controllers, sk);
      ApplyCapacityOk(l.controllers[sk].state, capacity, revision, now);
      var c' := AdmissionControllers.ApplyCapacityIn(l.controllers[sk], capacity, revision, now);
      RunsOf(l.controllers, sk, c');
      Idle(l, r, sk, c');
      l' := l.(controllers := l.controllers[sk := c']);
    }
  }

  /** Session, controller and everything held or queued for there, at once. */
  method RemoveScope(core: WovenCore, l: Ledger, sk: SessionKey) returns (l': Ledger)
    requires core.Valid() && LedgerOk(l, RosterOf(core.graph)) && Ticketless(l)
    modifies core
    ensures core.graph == DropSession(old(core.graph), sk) && RosterOf(core.graph) == old(RosterOf(core.graph))
    ensures l' == DropScope(l, sk) && LedgerOk(l', RosterOf(core.graph)) && Ticketless(l')
    ensures core.Valid() <==> forall h | h in RosterOf(core.graph).members :: h.1 != sk
  {
    ScopeDropped(core.graph, l, sk);
    core.RemoveSession(sk);
    l' := DropScope(l, sk);
  }

  lemma ScopeDropped(g: Graph, l: Ledger, sk: SessionKey)
    requires LinksOk(g) && LedgerOk(l, RosterOf(g)) && Ticketless(l)
    ensures RosterOf(DropSession(g, sk)) == RosterOf(g)
    ensures LedgerOk(DropScope(l, sk), RosterOf(g)) && Ticketless(DropScope(l, sk))
    ensures Deserted(g, sk) <==> forall h | h in RosterOf(g).members :: h.1 != sk
  {
    DesertedRoster(g, sk);
    SameRoster(g, DropSession(g, sk));
    DropKeepsLedger(l, RosterOf(g), sk);
  }

  lemma CoveredExactly(members: set<Holder>, members': set<Holder>, scoped: seq<nat>, sk: SessionKey)
    requires Remaining(members, members', scoped)
    ensures (forall h | h in members' :: h.1 != sk) <==> forall h | h in members && h.1 == sk :: h.0 in scoped
  {
  }

  /** What a publish, accepted or not, does to roster and sessions. */
  lemma PublishedFor(g: Graph, journal: seq<OutboundMessage>, config: CoreConfig, channels: Channels, c: nat,
                     m: OutboundMessage, verdict: Verdict, now: nat, g': Graph, journal': seq<OutboundMessage>,
                     r: Result<seq<nat>, CoreError>)
    requires r.Ok? ==> Published(g, journal, config, channels, c, m, verdict, now, g', journal', r.value)
    requires r.Err? ==> g' == g || Refused(g, journal, config, channels, c, m, verdict, now, g', journal', r.error)
    ensures FurnishedAll(g.sessions, g'.sessions)
    ensures RosterOf(g') == if r.Ok? then WithoutAll(RosterOf(g), r.value) else RosterOf(g)
  {
    if r.Ok? {
      PublishedRoster(g, journal, config, channels, c, m, verdict, now, g', journal', r.value);
      PublishedServes(g, journal, config, channels, c, m, verdict, now, g', journal', r.value);
    } else if g' == g {
      FurnishedSelf(g.sessions);
    } else {
      RefusedIsCharged(g, journal, config, channels, c, m, verdict, now, g', journal', r.error);
      RefusedRoster(g, config, c, m, now, g');
      RefusedServes(g, config, c, m, now, g');
    }
  }

  method PublishFor(core: WovenCore, l: Ledger, c: nat, m: OutboundMessage, verdict: Verdict, now: nat)
    returns (l': Ledger, r: Result<seq<nat>, CoreError>)
    requires core.Valid() && LedgerOk(l, RosterOf(core.graph)) && Ticketless(l)
    modifies core
    ensures core.Valid() && Serves(old(core.graph), core.graph)
    ensures LedgerOk(l', RosterOf(core.graph)) && Ticketless(l') && KeepsAll(l.controllers, l'.controllers)
    ensures r.Err? ==> l' == l
    ensures r.Ok? ==> Reaches(old(core.graph), core.config, core.channels, c, m, verdict, now, core.graph)
    ensures r.Ok? ==> RosterOf(core.graph) == WithoutAll(old(RosterOf(core.graph)), r.value)
  {
    ghost var g, journal := core.graph, core.journal;
    r := core.PublishAt(c, m, verdict, now);
    PublishedFor(g, journal, core.config, core.channels, c, m, verdict, now, core.graph, core.journal, r);
    if r.Ok? {
      l' := LoseHolders(l, RosterOf(g), r.value, now);
    } else {
      KeepsAllSelf(l.controllers);
      l' := l;
    }
  }

  method RequestFor(g: Graph, config: CoreConfig, l: Ledger, c: nat, sk: SessionKey, key: Option<Key>, now: nat)
    returns (l': Ledger, d: Result<Decision, CoreError>)
    requires LedgerOk(l, RosterOf(g)) && Ticketless(l)
    ensures LedgerOk(l', RosterOf(g)) && Ticketless(l') && OnlyPending(l, l', (c, sk))
    ensures d == RequestAnswer(g, config, l, c, sk, key, now) && Requested(g, config, l, c, sk, key, now, l', d)
    ensures d.Ok? && d.value.AdmittedNow? ==> l'.LeaseOf((c, sk)) == Some(d.value.lease)
    ensures CheckRequest(g.connections, c, sk).None? && d.Err? ==> (c, sk) !in l'.pending
  {
    KeepsAllSelf(l.controllers);
    var e := CheckRequest(g.connections, c, sk);
    if e.Some? { return l, Err(e.value); }
    var conn := g.connections[c];
    PrincipalKnown(g, c);
    l', d := RequestIn(l, RosterOf(g), (c, sk), conn.authenticated.value.id, key, |conn.memberships|,
                       config.maxMemberships, now);
  }

  class AdmittedCore {
    const core: WovenCore
    var ledger: Ledger

    /** The books balance. */
    ghost predicate Accounted()
      reads this, core
    {
      core.Valid() && LedgerOk(ledger, RosterOf(core.graph))
    }

    /** Between commands nobody who still has a ticket holds a pending lease. */
    ghost predicate Valid()
      reads this, core
    {
      Accounted() && Ticketless(ledger)
    }

    constructor (config: CoreConfig, channels: Channels)
      requires config.Valid()
      ensures Valid() && fresh(core) && ledger == NEW_LEDGER && core.config == config && core.channels == channels
    {
      core := new WovenCore(config, channels);
      ledger := NEW_LEDGER;
      new;
      assert NEW_LEDGER.Held() == map[];
    }

    method TransportConnected() returns (r: Result<nat, CoreError>)
      requires Valid()
      modifies core
      ensures Valid() && Serves(old(core.graph), core.graph)
      ensures r.Ok? <==> |old(core.graph).connections| != core.config.maxConnections
      ensures core.graph == if r.Ok? then Connect(old(core.graph)) else old(core.graph)
    {
      FurnishedSelf(core.graph.sessions);
      ghost var g := core.graph;
      r := core.TransportConnected();
      if r.Ok? { ConnectedRoster(g); }
    }

    method Authenticate(c: nat, verdict: Option<Principal>) returns (r: Result<nat, CoreError>)
      requires Valid()
      modifies core
      ensures Valid() && Serves(old(core.graph), core.graph)
      ensures r.Ok? <==> c != 0 && c in old(core.graph).connections
                         && old(core.graph).connections[c].authenticated.None? && verdict.Some? && verdict.value.id != 0
      ensures core.graph == if r.Ok? then WithConnection(old(core.graph), c,
                                old(core.graph).connections[c].(authenticated := verdict)) else old(core.graph)
    {
      FurnishedSelf(core.graph.sessions);
      ghost var g := core.graph;
      r := core.Authenticate(c, verdict);
      if r.Ok? {
        AuthenticatedRoster(g, core.graph, c, verdict);
        PrincipalsGrow(ledger, RosterOf(g), PrincipalsOf(core.graph));
      }
    }

    /** Admission for a session. The books still balance exactly when nobody had joined before: whoever is a
        member already holds no lease. */
    method ConfigureAdmission(sk: SessionKey, policy: QueuePolicy, capacity: nat, revision: nat)
      returns (e: Option<CoreError>)
      requires Valid() && capacity <= U32_MAX
      modifies this`ledger
      ensures core.Valid() && Ticketless(ledger)
      ensures Valid() <==> e.Some? || forall h | h in RosterOf(core.graph).members :: h.1 != sk
      ensures e.None? <==> NonZeroSession(sk) && sk in core.graph.sessions && sk !in old(ledger).controllers
      ensures ledger == if e.Some? then old(ledger)
                        else old(ledger).(controllers := old(ledger).controllers[sk := Tables(NewState(sk, policy,
                            capacity, revision), [], map[])])
    {
      EmptyTables(sk, policy, capacity, revision);
      ledger, e := ConfigureIn(ledger, RosterOf(core.graph), core.graph.sessions, sk,
                               Tables(NewState(sk, policy, capacity, revision), [], map[]));
    }

    method RequestAdmission(c: nat, sk: SessionKey, key: Option<Key>, now: nat) returns (d: Result<Decision, CoreError>)
      requires Valid()
      modifies this`ledger
      ensures Valid() && OnlyPending(old(ledger), ledger, (c, sk))
      ensures d == RequestAnswer(core.graph, core.config, old(ledger), c, sk, key, now)
      ensures Requested(core.graph, core.config, old(ledger), c, sk, key, now, ledger, d)
      ensures d.Ok? && d.value.AdmittedNow? ==> ledger.LeaseOf((c, sk)) == Some(d.value.lease)
      ensures CheckRequest(core.graph.connections, c, sk).None? && d.Err? ==> (c, sk) !in ledger.pending
    {
      ledger, d := RequestFor(core.graph, core.config, ledger, c, sk, key, now);
    }

    /** A pending lease becomes a membership and is bound, or nothing happens to the ledger. */
    method JoinWithAdmission(c: nat, sk: SessionKey, lease: Lease, now: nat) returns (e: Option<CoreError>)
      requires Accounted()
      modifies this`ledger, core
      ensures Accounted() && Serves(old(core.graph), core.graph)
      ensures e.Some? ==> ledger == old(ledger) && RosterOf(core.graph) == RosterOf(old(core.graph))
      ensures e.None? ==> BoundTo(old(ledger), ledger, RosterOf(core.graph), (c, sk), lease)
      ensures ledger.controllers == old(ledger).controllers
      ensures (core.graph, e) == LeaseOutcome(old(core.graph), core.config, old(ledger), c, sk, lease, now)
    {
      e, ledger := JoinLease(core, ledger, c, sk, lease, now);
    }

    /** Asks and joins in one turn. Whoever is refused after being admitted holds nothing afterwards. */
    method AdmitAndJoin(c: nat, sk: SessionKey, key: Option<Key>, now: nat) returns (d: Result<Decision, CoreError>)
      requires Valid()
      modifies this`ledger, core
      ensures Valid() && Serves(old(core.graph), core.graph) && KeepsAll(old(ledger).controllers, ledger.controllers)
      ensures d.Ok? && d.value.AdmittedNow? ==>
                (c, sk) in ledger.bound && ledger.bound[(c, sk)] == d.value.lease
                  && (c, sk) in RosterOf(core.graph).members
      ensures d.Err? ==> RosterOf(core.graph) == RosterOf(old(core.graph)) && ledger.bound == old(ledger).bound
      ensures d == AdmitAnswer(old(core.graph), core.config, old(ledger), c, sk, key, now)
      ensures CheckRequest(old(core.graph).connections, c, sk).None? && d.Err? ==> (c, sk) !in ledger.pending
    {
      NoStep(core.graph, core.config);
      ServesSelf(core.graph);
      d := RequestAdmission(c, sk, key, now);
      if d.Err? || !d.value.AdmittedNow? { return; }
      ghost var asked := ledger;
      OwnLeasePasses(core.graph, ledger, c, sk);
      var e := JoinWithAdmission(c, sk, d.value.lease, now);
      if e.Some? {
        ghost var joined := ledger;
        ledger := ReleasePendingIn(ledger, RosterOf(core.graph), (c, sk), now);
        KeepsAllTransitive(old(ledger).controllers, joined.controllers, ledger.controllers);
        d := Err(e.value);
      } else {
        BindingTicketless(asked, ledger, (c, sk));
      }
    }

    /** Turns an offer into a membership; if the join fails, the claim is rolled back. */
    method ClaimOffer(c: nat, sk: SessionKey, ticket: nat, now: nat) returns (r: Result<bool, CoreError>)
      requires Valid()
      modifies this`ledger, core
      ensures Valid() && Serves(old(core.graph), core.graph) && KeepsAll(old(ledger).controllers, ledger.controllers)
      ensures r == Ok(true) ==> (c, sk) in ledger.bound && (c, sk) in RosterOf(core.graph).members
      ensures r.Err? ==> SameHoldings(old(ledger), ledger) && RosterOf(core.graph) == RosterOf(old(core.graph))
      ensures r == ClaimAnswer(old(core.graph), core.config, old(ledger), c, sk, ticket, now)
    {
      ledger, r := ClaimFor(core, ledger, c, sk, ticket, now);
    }

    /** A heartbeat or a cancellation of the connection's own ticket moves no lease. */
    method TouchTicket(c: nat, sk: SessionKey, ticket: nat, cancel: bool, now: nat) returns (r: Result<bool, CoreError>)
      requires Valid()
      modifies this`ledger
      ensures Valid() && SameHoldings(old(ledger), ledger) && ledger.tickets == old(ledger).tickets
              && KeepsAll(old(ledger).controllers, ledger.controllers)
      ensures Touches(core.graph.connections, old(ledger), c, sk, ticket, cancel, now, ledger, r)
    {
      ledger, r := TouchOwn(ledger, core.graph, c, sk, ticket, cancel, now);
    }

    /** Expiry at every controller, without client traffic. */
    method MaintainAdmission(now: nat)
      requires Valid()
      modifies this`ledger
      ensures Valid() && KeepsAll(old(ledger).controllers, ledger.controllers)
      ensures SameHoldings(old(ledger), ledger) && ledger.tickets == old(ledger).tickets
      ensures Maintained(old(ledger).controllers, ledger.controllers, ledger.controllers.Keys, now)
    {
      ledger := MaintainAll(ledger, RosterOf(core.graph), now);
    }

    /** A trusted capacity update: in force if it is newer, without effect otherwise. No lease moves. */
    method ApplySessionCapacity(sk: SessionKey, capacity: nat, revision: nat, now: nat) returns (e: Option<CoreError>)
      requires Valid() && capacity <= U32_MAX
      modifies this`ledger
      ensures Valid() && SameHoldings(old(ledger), ledger) && ledger.tickets == old(ledger).tickets
      ensures e == CheckCapacity(old(ledger), sk) && (e.Some? ==> ledger == old(ledger))
      ensures e.None? ==> Retuned(old(ledger).controllers, ledger.controllers, sk, capacity, revision, now)
    {
      ledger, e := RetuneIn(ledger, RosterOf(core.graph), sk, capacity, revision, now);
    }

    /** Joining a session without admission; a session with admission demands a lease. */
    method JoinSession(c: nat, sk: SessionKey, now: nat) returns (e: Option<CoreError>)
      requires Valid()
      modifies core
      ensures Valid() && Serves(old(core.graph), core.graph)
      ensures sk in ledger.controllers ==> e == Some(AdmissionLeaseRequired(sk)) && core.graph == old(core.graph)
      ensures sk !in ledger.controllers ==> (core.graph, e) == JoinOutcome(old(core.graph), core.config, c, sk, now)
    {
      ghost var g := core.graph;
      NoStep(core.graph, core.config);
      ServesSelf(core.graph);
      if sk in ledger.controllers { return Some(AdmissionLeaseRequired(sk)); }
      e := core.JoinSession(c, sk, now);
      JoinOutcomeRoster(g, core.config, c, sk, now);
      JoinServes(g, core.config, c, sk, now);
      if e.None? { PlainJoin(ledger, RosterOf(g), (c, sk)); }
    }

    method LeaveSession(c: nat, sk: SessionKey, now: nat) returns (e: Option<CoreError>)
      requires Valid()
      modifies this`ledger, core
      ensures Valid() && Serves(old(core.graph), core.graph) && KeepsAll(old(ledger).controllers, ledger.controllers)
      ensures e.Some? ==> core.graph == old(core.graph) && ledger == old(ledger)
      ensures e.None? ==> RosterOf(core.graph) == Leave(RosterOf(old(core.graph)), (c, sk)) && (c, sk) !in ledger.bound
      ensures MembershipsExistIn(old(core.graph), c) && (core.graph, e) == LeaveOutcome(old(core.graph), c, sk)
      ensures e.None? && (c, sk) in old(ledger).bound && sk in old(ledger).controllers
              ==> Turned(old(ledger).controllers, ledger.controllers, sk,
                         Release(old(ledger).controllers[sk].state, old(ledger).bound[(c, sk)], Intentional, now))
    {
      ghost var g := core.graph;
      KeepsAllSelf(ledger.controllers);
      e := core.LeaveSession(c, sk);
      LeaveOutcomeRoster(g, c, sk);
      LeaveServes(g, c, sk);
      if e.None? { ledger := LeaveLedger(ledger, RosterOf(g), (c, sk), now); }
    }

    method TransportLost(c: nat, now: nat) returns (r: Result<(), CoreError>)
      requires Valid()
      modifies this`ledger, core
      ensures Valid() && Serves(old(core.graph), core.graph) && KeepsAll(old(ledger).controllers, ledger.controllers)
      ensures r.Ok? <==> c != 0 && c in old(core.graph).connections
      ensures r.Err? ==> core.graph == old(core.graph) && ledger == old(ledger)
      ensures r.Ok? ==> RosterOf(core.graph) == WithoutConnection(RosterOf(old(core.graph)), c)
                        && NoneOf(ledger.bound, c) && NoneOf(ledger.pending, c) && NoneOf(ledger.tickets, c)
      ensures r.Ok? ==> AllGivenUp(old(ledger), ledger, c, now)
    {
      ghost var g := core.graph;
      ghost var order;
      KeepsAllSelf(ledger.controllers);
      r, order := core.TransportLost(c);
      if r.Ok? {
        DisconnectRoster(g, c, order);
        DisconnectServes(g, c, order);
        var l := LoseHolder(ledger, RosterOf(g), c, now);
        LostTicketless(ledger, l, c);
        ledger := l;
      }
    }

    /** Loses the connections of a scope one by one. A connection that is gone already is skipped. */
    method LoseScoped(scoped: seq<nat>, now: nat)
      requires Valid()
      modifies this`ledger, core
      ensures Valid() && Serves(old(core.graph), core.graph) && KeepsAll(old(ledger).controllers, ledger.controllers)
      ensures Remaining(RosterOf(old(core.graph)).members, RosterOf(core.graph).members, scoped)
    {
      NoStep(core.graph, core.config);
      ServesSelf(core.graph);
      ghost var members := RosterOf(core.graph).members;
      KeepsAllSelf(ledger.controllers);
      for i := 0 to |scoped|
        invariant Valid() && Serves(old(core.graph), core.graph)
                  && KeepsAll(old(ledger).controllers, ledger.controllers)
        invariant Remaining(members, RosterOf(core.graph).members, scoped[..i])
      {
        ghost var g, before := core.graph, ledger;
        var r := TransportLost(scoped[i], now);
        KeepsAllTransitive(old(ledger).controllers, before.controllers, ledger.controllers);
        ServesTransitive(old(core.graph), g, core.graph);
        if r.Err? { NotConnected(g, core.config, scoped[i]); }
        RemainingNext(members, RosterOf(g), RosterOf(core.graph).members, scoped, i);
      }
      assert scoped[..|scoped|] == scoped;
    }

    /** Deletes a scope: its connections are lost, then the session, its controller and all that is still held
        or queued for there go. Every other session only moved on. Tables and books are consistent afterwards
        exactly when every member of the session was among those connections. */
    method DeleteScope(sk: SessionKey, scoped: seq<nat>, now: nat)
      requires Valid()
      modifies this`ledger, core
      ensures Valid() <==> forall h | h in RosterOf(old(core.graph)).members && h.1 == sk :: h.0 in scoped
      ensures sk !in core.graph.sessions && sk !in ledger.controllers
              && Serves(DropSession(old(core.graph), sk), core.graph)
      ensures KeepsAll(old(ledger).controllers - {sk}, ledger.controllers)
      ensures forall h | h in ledger.Held() || h in ledger.tickets :: h.1 != sk
      ensures Remaining(RosterOf(old(core.graph)).members, RosterOf(core.graph).members, scoped)
    {
      LoseScoped(scoped, now);
      DropServes(old(core.graph), core.graph, sk);
      KeepsAllDrop(old(ledger).controllers, ledger.controllers, sk);
      CoveredExactly(RosterOf(old(core.graph)).members, RosterOf(core.graph).members, scoped, sk);
      ledger := RemoveScope(core, ledger, sk);
    }

    /** The consumers a publish drops lose their leases like any lost connection. */
    method PublishAt(c: nat, m: OutboundMessage, verdict: Verdict, now: nat) returns (r: Result<seq<nat>, CoreError>)
      requires Valid()
      modifies this`ledger, core
      ensures Valid() && Serves(old(core.graph), core.graph) && KeepsAll(old(ledger).controllers, ledger.controllers)
      ensures r.Err? ==> ledger == old(ledger)
      ensures r.Ok? ==> Reaches(old(core.graph), core.config, core.channels, c, m, verdict, now, core.graph)
      ensures r.Ok? ==> RosterOf(core.graph) == WithoutAll(RosterOf(old(core.graph)), r.value)
    {
      ledger, r := PublishFor(core, ledger, c, m, verdict, now);
    }
  }

  /** The memberships that are left once the connections in `lost` are gone. */
  ghost predicate Remaining(members: set<Holder>, members': set<Holder>, lost: seq<nat>) {
    forall h :: h in members' <==> h in members && h.0 !in lost
  }

  lemma RemainingNext(members: set<Holder>, r: Roster, members': set<Holder>, scoped: seq<nat>, i: nat)
    requires i < |scoped| && Remaining(members, r.members, scoped[..i])
             && members' == WithoutConnection(r, scoped[i]).members
    ensures Remaining(members, members', scoped[..i + 1])
  {
    assert scoped[..i + 1] == scoped[..i] + [scoped[i]];
  }

  lemma NotConnected(g: Graph, config: CoreConfig, c: nat)
    requires BudgetsOk(g, config) && (c == 0 || c !in g.connections)
    ensures WithoutConnection(RosterOf(g), c).members == RosterOf(g).members
  {
  }

  ghost function Leave(r: Roster, h: Holder): Roster { r.(members := r.members - {h}) }

  lemma LeaveOutcomeRoster(g: Graph, c: nat, sk: SessionKey)
    requires MembershipsExistIn(g, c)
    ensures LeaveOutcome(g, c, sk).1.None? ==> RosterOf(LeaveOutcome(g, c, sk).0) == Leave(RosterOf(g), (c, sk))
  {
    if LeaveOutcome(g, c, sk).1.None? {
      DetachIdentities(g, c, sk);
      LeftRoster(g, Detach(g, c, sk), c, sk);
    }
  }

  /** Gives the bound lease back, if there is one, and forgets the ticket. */
  method LeaveLedger(l: Ledger, ghost r: Roster, h: Holder, now: nat) returns (l': Ledger)
    requires LedgerOk(l, r)
    ensures LedgerOk(l', Leave(r, h)) && h !in l'.bound && h !in l'.tickets && l'.pending == l.pending
    ensures KeepsAll(l.controllers, l'.controllers)
    ensures Ticketless(l) ==> Ticketless(l')
    ensures l'.tickets == l.tickets - {h} && l'.bound == l.bound - {h}
    ensures if h in l.bound then h.1 in l.controllers
               && Turned(l.controllers, l'.controllers, h.1,
                         Released(Intentional, now)(l.controllers[h.1].state, l.bound[h]))
            else l'.controllers == l.controllers
  {
    l' := l;
    KeepsAllSelf(l.controllers);
    if h in l.bound {
      l' := ReleaseBoundIn(l, r, h, Intentional, now);
    } else {
      UnboundLeaves(l, r, h);
    }
    ghost var released := l';
    l' := l'.(tickets := l'.tickets - {h});
    TicketsFree(released, l', Leave(r, h));
  }

  method LoseHolders(l: Ledger, ghost r: Roster, lost: seq<nat>, now: nat) returns (l': Ledger)
    requires LedgerOk(l, r) && Ticketless(l)
    ensures LedgerOk(l', WithoutAll(r, lost)) && Ticketless(l') && KeepsAll(l.controllers, l'.controllers)
  {
    l' := l;
    KeepsAllSelf(l.controllers);
    for i := 0 to |lost|
      invariant LedgerOk(l', WithoutAll(r, lost[..i])) && Ticketless(l') && KeepsAll(l.controllers, l'.controllers)
    {
      ghost var before := l';
      l' := LoseHolder(l', WithoutAll(r, lost[..i]), lost[i], now);
      LostTicketless(before, l', lost[i]);
      KeepsAllTransitive(l.controllers, before.controllers, l'.controllers);
      assert lost[..i + 1][..i] == lost[..i];
    }
    assert lost[..|lost|] == lost;
  }

  method BindIn(l: Ledger, ghost r: Roster, ghost r': Roster, h: Holder) returns (l': Ledger)
    requires LedgerOk(l, r) && h in l.pending && r' == Enter(r, h)
    ensures LedgerOk(l', r') && BoundAs(l, l', r', h) && l'.controllers == l.controllers
  {
    Binds(l, r, h);
    l' := l.(pending := l.pending - {h}, bound := l.bound[h := l.pending[h]]);
  }

  lemma NotPending(l: Ledger, h: Holder)
    requires Apart(l) && h in l.bound
    ensures Binding(l, l, h)
  {
  }

  lemma BoundIsMember(l: Ledger, members: set<Holder>, h: Holder)
    requires BoundMembers(l, members) && h in l.bound
    ensures h in members
  {
  }
}
