/** The lease ledger: which connection holds which admission lease of which session, pending until the
    membership exists and bound from then on. */
module Ledgers {
  import opened Model
  import opened Publishing
  import opened Admission
  import opened AdmissionInvariants
  import opened AdmissionControllers

  type Holder = (nat, SessionKey)
  type Controllers = map<SessionKey, Tables>
  type Holdings = map<Holder, Lease>

  datatype Ledger = Ledger(
    controllers: Controllers,
    pending: Holdings,
    bound: Holdings,
    tickets: map<Holder, nat>)
  {
    ghost function Held(): Holdings { pending + bound }

    function LeaseOf(h: Holder): Option<Lease> {
      if h in bound then Some(bound[h]) else if h in pending then Some(pending[h]) else None
    }
  }

  const NEW_LEDGER := Ledger(map[], map[], map[], map[])

  /** What the ledger has to know of the session graph: who authenticated as whom, and who is a member. */
  datatype Roster = Roster(principals: map<nat, nat>, members: set<Holder>)

  // ------------------------------------------------------------------ the books

  ghost predicate ControllerOk(c: Tables, sk: SessionKey)
  {
    AdmissionOk(c.state) && c.Synced() && c.state.session == sk
  }

  ghost predicate ControllersOk(cs: Controllers) {
    forall sk {:trigger ControllerOk(cs[sk], sk)} | sk in cs :: ControllerOk(cs[sk], sk)
  }

  /** Every lease on the books is active at its controller, in the holder's name. */
  ghost predicate Backed(cs: Controllers, held: Holdings, principals: map<nat, nat>) {
    forall h | h in held ::
      && h.1 in cs && cs[h.1].state.Holds(held[h])
      && h.0 in principals && principals[h.0] == held[h].principal
  }

  /** No lease is on the books twice. */
  ghost predicate Injective(held: Holdings) {
    forall a, b | a in held && b in held && a.1 == b.1 && held[a].id == held[b].id :: a == b
  }

  ghost predicate HeldBy(held: Holdings, sk: SessionKey, id: nat, c: nat) { (c, sk) in held && held[(c, sk)].id == id }

  /** No active lease is off the books. */
  ghost predicate Complete(cs: Controllers, held: Holdings) {
    forall sk, id | sk in cs && id in cs[sk].state.active :: exists c :: HeldBy(held, sk, id, c)
  }

  ghost predicate Books(cs: Controllers, held: Holdings, principals: map<nat, nat>) {
    Backed(cs, held, principals) && Injective(held) && Complete(cs, held)
  }

  lemma BooksGrant(cs: Controllers, held: Holdings, principals: map<nat, nat>, h: Holder, c': Tables, lease: Lease)
    requires Books(cs, held, principals) && h.1 in cs && h !in held && h.0 in principals
             && principals[h.0] == lease.principal
    requires c'.state.session == cs[h.1].state.session && c'.state.Holds(lease)
    requires lease.id !in cs[h.1].state.active && c'.state.active == cs[h.1].state.active[lease.id := lease.principal]
    ensures Books(cs[h.1 := c'], held[h := lease], principals)
  {
    GrantBacked(cs, held, principals, h, c', lease);
    GrantInjective(cs, held, principals, h, lease);
    GrantComplete(cs, held, h, c', lease);
  }

  lemma GrantBacked(cs: Controllers, held: Holdings, principals: map<nat, nat>, h: Holder, c': Tables, lease: Lease)
    requires Backed(cs, held, principals) && h.1 in cs && h.0 in principals && principals[h.0] == lease.principal
    requires c'.state.session == cs[h.1].state.session && c'.state.Holds(lease)
    requires lease.id !in cs[h.1].state.active && c'.state.active == cs[h.1].state.active[lease.id := lease.principal]
    ensures Backed(cs[h.1 := c'], held[h := lease], principals)
  {
  }

  lemma GrantInjective(cs: Controllers, held: Holdings, principals: map<nat, nat>, h: Holder, lease: Lease)
    requires Injective(held) && Backed(cs, held, principals) && h.1 in cs && lease.id !in cs[h.1].state.active
    ensures Injective(held[h := lease])
  {
  }

  lemma GrantComplete(cs: Controllers, held: Holdings, h: Holder, c': Tables, lease: Lease)
    requires Complete(cs, held) && h.1 in cs && h !in held
             && c'.state.active == cs[h.1].state.active[lease.id := lease.principal]
    ensures Complete(cs[h.1 := c'], held[h := lease])
  {
    var cs', held' := cs[h.1 := c'], held[h := lease];
    forall sk, id | sk in cs' && id in cs'[sk].state.active ensures exists c :: HeldBy(held', sk, id, c) {
      if sk == h.1 && id == lease.id {
        assert (h.0, h.1) == h;
        assert HeldBy(held', sk, id, h.0);
      } else {
        var c :| HeldBy(held, sk, id, c);
        assert HeldBy(held', sk, id, c);
      }
    }
  }

  lemma BooksRelease(cs: Controllers, held: Holdings, principals: map<nat, nat>, h: Holder, c': Tables)
    requires Books(cs, held, principals) && h in held && h.1 in cs
    requires c'.state.session == cs[h.1].state.session && c'.state.active == cs[h.1].state.active - {held[h].id}
    ensures Books(cs[h.1 := c'], held - {h}, principals)
  {
    ReleaseBacked(cs, held, principals, h, c');
    ReleaseComplete(cs, held, h, c');
  }

  lemma ReleaseBacked(cs: Controllers, held: Holdings, principals: map<nat, nat>, h: Holder, c': Tables)
    requires Backed(cs, held, principals) && Injective(held) && h in held && h.1 in cs
    requires c'.state.session == cs[h.1].state.session && c'.state.active == cs[h.1].state.active - {held[h].id}
    ensures Backed(cs[h.1 := c'], held - {h}, principals)
  {
  }

  lemma ReleaseComplete(cs: Controllers, held: Holdings, h: Holder, c': Tables)
    requires Complete(cs, held) && h in held && h.1 in cs && c'.state.active == cs[h.1].state.active - {held[h].id}
    ensures Complete(cs[h.1 := c'], held - {h})
  {
    var cs', held' := cs[h.1 := c'], held - {h};
    forall sk, id | sk in cs' && id in cs'[sk].state.active ensures exists c :: HeldBy(held', sk, id, c) {
      var c :| HeldBy(held, sk, id, c);
      assert HeldBy(held', sk, id, c);
    }
  }

  lemma BooksSame(cs: Controllers, held: Holdings, principals: map<nat, nat>, sk: SessionKey, c': Tables)
    requires Books(cs, held, principals) && sk in cs
    requires c'.state.session == cs[sk].state.session && c'.state.active == cs[sk].state.active
    ensures Books(cs[sk := c'], held, principals)
  {
    var cs' := cs[sk := c'];
    forall k, id | k in cs' && id in cs'[k].state.active ensures exists c :: HeldBy(held, k, id, c) {
      assert id in cs[k].state.active;
    }
  }

  // ------------------------------------------------------------------ the invariant

  /** In a session with admission, the bound leases are exactly the memberships. */
  ghost predicate BoundMembers(l: Ledger, members: set<Holder>) {
    && (forall h | h in l.bound :: h in members)
    && (forall h | h in members && h.1 in l.controllers :: h in l.bound)
  }

  ghost predicate Apart(l: Ledger) { l.pending.Keys !! l.bound.Keys }

  ghost predicate LedgerOk(l: Ledger, r: Roster) {
    ControllersOk(l.controllers) && Books(l.controllers, l.Held(), r.principals)
      && BoundMembers(l, r.members) && Apart(l)
  }

  lemma BooksBalance(cs: Controllers, held: Holdings, principals: map<nat, nat>, sk: SessionKey, id: nat)
    requires Books(cs, held, principals) && sk in cs
    ensures id in cs[sk].state.active <==> exists c :: HeldBy(held, sk, id, c)
    ensures forall c1, c2 | HeldBy(held, sk, id, c1) && HeldBy(held, sk, id, c2) :: c1 == c2
  {
    forall c | HeldBy(held, sk, id, c) ensures id in cs[sk].state.active {
      assert cs[(c, sk).1].state.Holds(held[(c, sk)]);
    }
    forall c1, c2 | HeldBy(held, sk, id, c1) && HeldBy(held, sk, id, c2) ensures c1 == c2 {
      assert (c1, sk) == (c2, sk);
    }
  }

  /** At every session with admission the active leases are exactly, and each once, the leases held
      pending or bound, and the bound ones are exactly the members'. */
  lemma LeasesAccounted(l: Ledger, r: Roster, sk: SessionKey, id: nat)
    requires LedgerOk(l, r) && sk in l.controllers
    ensures id in l.controllers[sk].state.active <==> exists c :: HeldBy(l.Held(), sk, id, c)
    ensures forall c1, c2 | HeldBy(l.Held(), sk, id, c1) && HeldBy(l.Held(), sk, id, c2) :: c1 == c2
    ensures forall c :: (c, sk) in l.bound <==> (c, sk) in r.members
  {
    BooksBalance(l.controllers, l.Held(), r.principals, sk, id);
    BoundAreMembers(l, r.members, sk);
  }

  lemma BoundAreMembers(l: Ledger, members: set<Holder>, sk: SessionKey)
    requires BoundMembers(l, members) && sk in l.controllers
    ensures forall c :: (c, sk) in l.bound <==> (c, sk) in members
  {
  }

  // ------------------------------------------------------------------ updates of one holder or one controller

  /** The controller of a session moved to `c'`. */
  ghost predicate Runs(cs: Controllers, sk: SessionKey, c': Tables)
    requires sk in cs
  {
    ControllersOk(cs[sk := c']) && c'.state.session == cs[sk].state.session
  }

  lemma RunsOf(cs: Controllers, sk: SessionKey, c': Tables)
    requires ControllersOk(cs) && sk in cs && ControllerOk(c', sk)
    ensures Runs(cs, sk, c')
  {
    assert ControllerOk(cs[sk], sk);
    var cs' := cs[sk := c'];
    forall k | k in cs' ensures ControllerOk(cs'[k], k) { if k != sk { assert ControllerOk(cs[k], k); } }
  }

  /** The controller moved on at its limit and revision, as clients make it. */
  ghost predicate Works(cs: Controllers, sk: SessionKey, c': Tables)
    requires sk in cs
  {
    Runs(cs, sk, c') && KeepsAll(cs, cs[sk := c'])
  }

  lemma WorksOf(cs: Controllers, sk: SessionKey, c': Tables)
    requires ControllersOk(cs) && sk in cs && ControllerOk(c', sk) && Keeps(cs[sk].state, c'.state)
    ensures Works(cs, sk, c')
  {
    RunsOf(cs, sk, c');
    var cs' := cs[sk := c'];
    assert cs'.Keys == cs.Keys;
    forall k | k in cs ensures Kept(cs, cs', k) { KeepsSelf(cs[k].state); }
  }

  ghost predicate Kept(cs: Controllers, cs': Controllers, sk: SessionKey) {
    sk in cs && sk in cs' && Keeps(cs[sk].state, cs'[sk].state)
  }

  /** The same controllers, each evolved at its limit and revision. */
  ghost predicate KeepsAll(cs: Controllers, cs': Controllers) {
    cs'.Keys == cs.Keys && forall sk {:trigger Kept(cs, cs', sk)} | sk in cs :: Kept(cs, cs', sk)
  }

  lemma KeepsSelf(s: State)
    ensures Keeps(s, s)
  {
  }

  lemma KeepsAllSelf(cs: Controllers)
    ensures KeepsAll(cs, cs)
  {
    forall k | k in cs ensures Kept(cs, cs, k) { KeepsSelf(cs[k].state); }
  }

  lemma KeepsAllDrop(cs: Controllers, cs': Controllers, sk: SessionKey)
    requires KeepsAll(cs, cs')
    ensures KeepsAll(cs - {sk}, cs' - {sk})
  {
    assert (cs' - {sk}).Keys == cs'.Keys - {sk} && (cs - {sk}).Keys == cs.Keys - {sk};
    forall k | k in cs - {sk} ensures Kept(cs - {sk}, cs' - {sk}, k) { assert Kept(cs, cs', k); }
  }

  lemma KeepsAllTransitive(cs1: Controllers, cs2: Controllers, cs3: Controllers)
    requires KeepsAll(cs1, cs2) && KeepsAll(cs2, cs3)
    ensures KeepsAll(cs1, cs3)
  {
    forall k | k in cs1 ensures Kept(cs1, cs3, k) {
      assert Kept(cs1, cs2, k) && Kept(cs2, cs3, k);
      KeepsTransitive(cs1[k].state, cs2[k].state, cs3[k].state);
    }
  }

  lemma ControllerAt(cs: Controllers, sk: SessionKey)
    requires ControllersOk(cs) && sk in cs
    ensures ControllerOk(cs[sk], sk)
  {
  }

  lemma SessionAt(cs: Controllers, sk: SessionKey)
    requires ControllersOk(cs) && sk in cs
    ensures cs[sk].state.session == sk
  {
    ControllerAt(cs, sk);
  }

  /** A controller worked without granting or releasing anything. */
  lemma Idle(l: Ledger, r: Roster, sk: SessionKey, c': Tables)
    requires LedgerOk(l, r) && sk in l.controllers && Runs(l.controllers, sk, c')
             && c'.state.active == l.controllers[sk].state.active
    ensures LedgerOk(l.(controllers := l.controllers[sk := c']), r)
  {
    BooksSame(l.controllers, l.Held(), r.principals, sk, c');
    MembersSame(l, r.members, sk, c');
  }

  lemma MembersSame(l: Ledger, members: set<Holder>, sk: SessionKey, c': Tables)
    requires BoundMembers(l, members) && sk in l.controllers
    ensures BoundMembers(l.(controllers := l.controllers[sk := c']), members)
  {
  }

  /** A fresh lease is held pending. */
  lemma Grants(l: Ledger, r: Roster, h: Holder, c': Tables, lease: Lease)
    requires LedgerOk(l, r) && h.1 in l.controllers && Runs(l.controllers, h.1, c')
    requires h !in l.pending && h !in l.bound && h.0 in r.principals && r.principals[h.0] == lease.principal
    requires c'.state.Holds(lease) && lease.id !in l.controllers[h.1].state.active
    requires c'.state.active == l.controllers[h.1].state.active[lease.id := lease.principal]
    ensures LedgerOk(l.(controllers := l.controllers[h.1 := c'], pending := l.pending[h := lease]), r)
  {
    var l' := l.(controllers := l.controllers[h.1 := c'], pending := l.pending[h := lease]);
    HeldGrant(l, h, c', lease);
    BooksGrant(l.controllers, l.Held(), r.principals, h, c', lease);
    GrantMembers(l, r.members, h, c', lease);
  }

  lemma HeldGrant(l: Ledger, h: Holder, c': Tables, lease: Lease)
    requires Apart(l) && h !in l.pending && h !in l.bound
    ensures var l' := l.(controllers := l.controllers[h.1 := c'], pending := l.pending[h := lease]);
            l'.Held() == l.Held()[h := lease] && h !in l.Held() && Apart(l')
  {
  }

  lemma GrantMembers(l: Ledger, members: set<Holder>, h: Holder, c': Tables, lease: Lease)
    requires BoundMembers(l, members) && h.1 in l.controllers
    ensures BoundMembers(l.(controllers := l.controllers[h.1 := c'], pending := l.pending[h := lease]), members)
  {
  }

  /** A pending lease is given back. */
  lemma ReleasesPending(l: Ledger, r: Roster, h: Holder, c': Tables)
    requires LedgerOk(l, r) && h in l.pending && h.1 in l.controllers && Runs(l.controllers, h.1, c')
    requires c'.state.active == l.controllers[h.1].state.active - {l.pending[h].id}
    ensures LedgerOk(l.(controllers := l.controllers[h.1 := c'], pending := l.pending - {h}), r)
  {
    var l' := l.(controllers := l.controllers[h.1 := c'], pending := l.pending - {h});
    HeldWithout(l, h, c');
    BooksRelease(l.controllers, l.Held(), r.principals, h, c');
    DropMembers(l, r.members, h, c');
  }

  lemma DropMembers(l: Ledger, members: set<Holder>, h: Holder, c': Tables)
    requires BoundMembers(l, members) && h.1 in l.controllers
    ensures BoundMembers(l.(controllers := l.controllers[h.1 := c'], pending := l.pending - {h}), members)
  {
  }

  lemma HeldWithout(l: Ledger, h: Holder, c': Tables)
    requires Apart(l) && h in l.pending
    ensures var l' := l.(controllers := l.controllers[h.1 := c'], pending := l.pending - {h});
            l'.Held() == l.Held() - {h} && l.Held()[h] == l.pending[h] && h in l.Held() && Apart(l')
  {
  }

  /** A bound lease is given back together with the membership. */
  lemma ReleasesBound(l: Ledger, r: Roster, h: Holder, c': Tables)
    requires LedgerOk(l, r) && h in l.bound && h.1 in l.controllers && Runs(l.controllers, h.1, c')
    requires c'.state.active == l.controllers[h.1].state.active - {l.bound[h].id}
    ensures LedgerOk(l.(controllers := l.controllers[h.1 := c'], bound := l.bound - {h}),
                     r.(members := r.members - {h}))
  {
    HeldWithoutBound(l, h, c');
    BooksRelease(l.controllers, l.Held(), r.principals, h, c');
    UnboundMembers(l, r.members, h, c');
  }

  lemma HeldWithoutBound(l: Ledger, h: Holder, c': Tables)
    requires Apart(l) && h in l.bound
    ensures var l' := l.(controllers := l.controllers[h.1 := c'], bound := l.bound - {h});
            l'.Held() == l.Held() - {h} && l.Held()[h] == l.bound[h] && h in l.Held() && Apart(l')
  {
  }

  lemma UnboundMembers(l: Ledger, members: set<Holder>, h: Holder, c': Tables)
    requires BoundMembers(l, members) && h.1 in l.controllers
    ensures BoundMembers(l.(controllers := l.controllers[h.1 := c'], bound := l.bound - {h}), members - {h})
  {
  }

  /** The membership exists: the pending lease becomes the bound one. */
  lemma Binds(l: Ledger, r: Roster, h: Holder)
    requires LedgerOk(l, r) && h in l.pending
    ensures LedgerOk(l.(pending := l.pending - {h}, bound := l.bound[h := l.pending[h]]),
                     r.(members := r.members + {h}))
  {
    var l' := l.(pending := l.pending - {h}, bound := l.bound[h := l.pending[h]]);
    HeldBind(l, h);
    BindMembers(l, r.members, h);
  }

  lemma HeldBind(l: Ledger, h: Holder)
    requires Apart(l) && h in l.pending
    ensures var l' := l.(pending := l.pending - {h}, bound := l.bound[h := l.pending[h]]);
            l'.Held() == l.Held() && Apart(l')
  {
  }

  lemma BindMembers(l: Ledger, members: set<Holder>, h: Holder)
    requires BoundMembers(l, members) && h in l.pending
    ensures BoundMembers(l.(pending := l.pending - {h}, bound := l.bound[h := l.pending[h]]), members + {h})
  {
  }

  lemma HolderBacked(l: Ledger, r: Roster, h: Holder)
    requires Books(l.controllers, l.Held(), r.principals) && h in l.Held()
    ensures h.1 in l.controllers && l.controllers[h.1].state.Holds(l.Held()[h])
    ensures h.0 in r.principals && r.principals[h.0] == l.Held()[h].principal
  {
  }

  // ------------------------------------------------------------------ controllers at work

  ghost predicate Granted(c: Tables, c': Tables, principal: nat, lease: Lease) {
    && c'.state.Holds(lease) && lease.principal == principal && lease.id !in c.state.active
    && c'.state.active == c.state.active[lease.id := lease.principal]
  }

  method JoinAt(cs: Controllers, sk: SessionKey, principal: nat, key: Option<Key>, now: nat)
    returns (c': Tables, d: Decision)
    requires ControllersOk(cs) && sk in cs
    ensures Works(cs, sk, c')
    ensures (c'.state, d) == RequestJoin(cs[sk].state, principal, key, now)
    ensures if d.AdmittedNow? then Granted(cs[sk], c', principal, d.lease) else c'.state.active == cs[sk].state.active
  {
    ControllerAt(cs, sk);
    RequestJoinOk(cs[sk].state, principal, key, now);
    c', d := AdmissionControllers.RequestJoinIn(cs[sk], principal, key, now);
    WorksOf(cs, sk, c');
  }

  method ReleaseFrom(cs: Controllers, sk: SessionKey, lease: Lease, reason: ReleaseReason, now: nat)
    returns (c': Tables)
    requires ControllersOk(cs) && sk in cs && cs[sk].state.Holds(lease)
    ensures Works(cs, sk, c') && c'.state.active == cs[sk].state.active - {lease.id}
    ensures c'.state == Release(cs[sk].state, lease, reason, now)
  {
    ControllerAt(cs, sk);
    ReleaseOk(cs[sk].state, lease, reason, now);
    c' := AdmissionControllers.ReleaseIn(cs[sk], lease, reason, now);
    WorksOf(cs, sk, c');
  }

  method CancelAt(cs: Controllers, sk: SessionKey, ticket: nat, now: nat) returns (c': Tables)
    requires ControllersOk(cs) && sk in cs
    ensures Works(cs, sk, c') && c'.state.active == cs[sk].state.active
    ensures c'.state == Cancel(cs[sk].state, ticket, now).0
  {
    ControllerAt(cs, sk);
    CancelOk(cs[sk].state, ticket, now);
    var result;
    c', result := AdmissionControllers.CancelIn(cs[sk], ticket, now);
    WorksOf(cs, sk, c');
  }

  method HeartbeatAt(cs: Controllers, sk: SessionKey, ticket: nat, now: nat) returns (c': Tables)
    requires ControllersOk(cs) && sk in cs
    ensures Works(cs, sk, c') && c'.state.active == cs[sk].state.active
    ensures c'.state == Heartbeat(cs[sk].state, ticket, now)
  {
    ControllerAt(cs, sk);
    HeartbeatOk(cs[sk].state, ticket, now);
    c' := AdmissionControllers.HeartbeatIn(cs[sk], ticket, now);
    WorksOf(cs, sk, c');
  }

  /** Right after a claim the ticket, if it is still kept, names the lease it was turned into. */
  ghost predicate ClaimedWith(c: Tables, ticket: nat, lease: Lease) {
    && c.state.Holds(lease)
    && (ticket in c.state.tickets
        ==> c.state.tickets[ticket].state == Admitted(lease.id) && c.state.tickets[ticket].principal == lease.principal)
  }

  /** The lease a claim yields, if it does. */
  ghost function Yielded(s: State, ticket: nat, now: nat): Option<Lease> {
    var r := Claim(s, ticket, now).1;
    if r.Ok? then Some(r.value) else None
  }

  method ClaimAt(cs: Controllers, sk: SessionKey, ticket: nat, principal: nat, now: nat)
    returns (c': Tables, lease: Option<Lease>)
    requires ControllersOk(cs) && sk in cs && ticket in cs[sk].state.tickets
             && cs[sk].state.tickets[ticket].principal == principal
    ensures Works(cs, sk, c') && c'.state == Claim(cs[sk].state, ticket, now).0
    ensures lease == Yielded(cs[sk].state, ticket, now)
    ensures if lease.Some? then Granted(cs[sk], c', principal, lease.value) && ClaimedWith(c', ticket, lease.value)
            else c'.state.active == cs[sk].state.active
  {
    ControllerAt(cs, sk);
    ClaimOk(cs[sk].state, ticket, now);
    TicketKeepsPrincipal(cs[sk].state, ticket, now);
    var r;
    c', r := AdmissionControllers.ClaimIn(cs[sk], ticket, now);
    WorksOf(cs, sk, c');
    lease := if r.Ok? then Some(r.value) else None;
  }

  lemma TicketKeepsPrincipal(s: State, ticket: nat, now: nat)
    requires AdmissionOk(s) && ticket in s.tickets
    ensures ticket in Expire(s, now).tickets ==> Expire(s, now).tickets[ticket].principal == s.tickets[ticket].principal
  {
    ExpireOk(s, now);
  }

  /** A claim whose membership failed is undone completely: the active leases are those from before. */
  method RollbackAt(cs: Controllers, sk: SessionKey, ticket: nat, lease: Lease, now: nat) returns (c': Tables)
    requires ControllersOk(cs) && sk in cs && ClaimedWith(cs[sk], ticket, lease)
    ensures Works(cs, sk, c') && c'.state.active == cs[sk].state.active - {lease.id}
    ensures c'.state == Rollback(cs[sk].state, ticket, lease, now)
  {
    ControllerAt(cs, sk);
    RollbackOk(cs[sk].state, ticket, lease, now);
    c' := AdmissionControllers.RollbackIn(cs[sk], ticket, lease, now);
    WorksOf(cs, sk, c');
  }

  // ------------------------------------------------------------------ requests

  function CountOf<V>(m: map<Holder, V>, c: nat): nat { |set h | h in m && h.0 == c| }

  /** Nothing but one controller and the pending lease of `h` may differ. */
  ghost predicate OnlyPending(l: Ledger, l': Ledger, h: Holder) {
    && l'.bound == l.bound && KeepsAll(l.controllers, l'.controllers)
    && (forall x | x != h ::
        (x in l'.pending <==> x in l.pending) && (x in l.pending ==> l'.pending[x] == l.pending[x]))
  }

  /** Only the controller of `sk` moved, to this state. */
  ghost predicate Turned(cs: Controllers, cs': Controllers, sk: SessionKey, s: State) {
    sk in cs && sk in cs' && cs' == cs[sk := cs'[sk]] && cs'[sk].state == s
  }

  /** A grant goes to the pending leases; any other answer leaves the books alone. */
  method AskController(l: Ledger, ghost r: Roster, h: Holder, principal: nat, key: Option<Key>, now: nat)
    returns (l': Ledger, d: Decision)
    requires LedgerOk(l, r) && h.0 in r.principals && r.principals[h.0] == principal
    requires h.1 in l.controllers && h !in l.pending && h !in l.bound
    ensures LedgerOk(l', r) && l'.bound == l.bound && l'.tickets == l.tickets && KeepsAll(l.controllers, l'.controllers)
    ensures l'.pending == if d.AdmittedNow? then l.pending[h := d.lease] else l.pending
    ensures Turned(l.controllers, l'.controllers, h.1, RequestJoin(l.controllers[h.1].state, principal, key, now).0)
    ensures d == RequestJoin(l.controllers[h.1].state, principal, key, now).1
  {
    var c';
    c', d := JoinAt(l.controllers, h.1, principal, key, now);
    if d.AdmittedNow? {
      Grants(l, r, h, c', d.lease);
      l' := l.(controllers := l.controllers[h.1 := c'], pending := l.pending[h := d.lease]);
    } else {
      Idle(l, r, h.1, c');
      l' := l.(controllers := l.controllers[h.1 := c']);
    }
  }

  lemma KeysKept(cs: Controllers, sk: SessionKey, c': Tables)
    requires sk in cs
    ensures cs[sk := c'].Keys == cs.Keys
  {
  }

  predicate TicketTaken(tickets: map<Holder, nat>, h: Holder, ticket: nat) {
    exists x | x in tickets :: x.0 != h.0 && x.1 == h.1 && tickets[x] == ticket
  }

  /** What a request answers without asking the controller, if it does. */
  function Known(l: Ledger, h: Holder, memberships: nat, maxMemberships: nat): Option<Result<Decision, CoreError>> {
    if h.1 !in l.controllers then Some(Err(AdmissionLeaseRequired(h.1)))
    else if l.LeaseOf(h).Some? then Some(Ok(AdmittedNow(l.LeaseOf(h).value)))
    else if h in l.tickets then Some(Ok(Queued(l.tickets[h])))
    else if CountOf(l.tickets, h.0) + CountOf(l.pending, h.0) + memberships >= maxMemberships
            then Some(Err(InvalidAdmissionLease(h.1)))
    else None
  }

  /** What a request is answered: what the holder already has, and otherwise what the controller decides, unless its
      ticket is another connection's. */
  ghost function Decided(l: Ledger, h: Holder, principal: nat, key: Option<Key>, memberships: nat, maxMemberships: nat,
                         now: nat): Result<Decision, CoreError> {
    var known := Known(l, h, memberships, maxMemberships);
    if known.Some? then known.value
    else Filed(l.tickets, h, RequestJoin(l.controllers[h.1].state, principal, key, now).1)
  }

  function Filed(tickets: map<Holder, nat>, h: Holder, d: Decision): Result<Decision, CoreError> {
    if d.Queued? && TicketTaken(tickets, h, d.ticket) then Err(InvalidAdmissionLease(h.1)) else Ok(d)
  }

  /** A request the controller had to decide: it moved, a granted lease is pending, and a ticket is remembered. */
  ghost predicate Asked(l: Ledger, l': Ledger, h: Holder, principal: nat, key: Option<Key>, now: nat,
                        d: Result<Decision, CoreError>) {
    && h.1 in l.controllers
    && Turned(l.controllers, l'.controllers, h.1, RequestJoin(l.controllers[h.1].state, principal, key, now).0)
    && l'.pending == (if d.Ok? && d.value.AdmittedNow? then l.pending[h := d.value.lease] else l.pending)
    && l'.tickets == (if d.Ok? && d.value.Queued? then l.tickets[h := d.value.ticket] else l.tickets)
  }

  /** Whoever holds a lease or a ticket is answered that again; a holder without either is asked about as long as its
      tickets, pending leases and memberships are fewer than allowed. */
  lemma KnownExactly(l: Ledger, h: Holder, memberships: nat, maxMemberships: nat)
    ensures var used := |set x | x in l.tickets && x.0 == h.0| + |set x | x in l.pending && x.0 == h.0| + memberships;
            && (Known(l, h, memberships, maxMemberships).None?
                <==> h.1 in l.controllers && h !in l.bound && h !in l.pending && h !in l.tickets
                     && used < maxMemberships)
            && (h.1 in l.controllers && h in l.bound ==>
                  Known(l, h, memberships, maxMemberships) == Some(Ok(AdmittedNow(l.bound[h]))))
            && (h.1 in l.controllers && h !in l.bound && h in l.pending ==>
                  Known(l, h, memberships, maxMemberships) == Some(Ok(AdmittedNow(l.pending[h]))))
            && (h.1 in l.controllers && h !in l.bound && h !in l.pending && h in l.tickets ==>
                  Known(l, h, memberships, maxMemberships) == Some(Ok(Queued(l.tickets[h]))))
  {
  }

  lemma UnknownHoldsNothing(l: Ledger, r: Roster, h: Holder)
    requires Books(l.controllers, l.Held(), r.principals)
    ensures h.1 !in l.controllers ==> h !in l.pending
  {
    if h in l.pending { assert h in l.Held(); }
  }

  /** Asks the session's controller. An admission is held pending under the connection, a ticket is
      remembered; what the connection already has is repeated. */
  method RequestIn(l: Ledger, ghost r: Roster, h: Holder, principal: nat, key: Option<Key>, memberships: nat,
                   maxMemberships: nat, now: nat)
    returns (l': Ledger, d: Result<Decision, CoreError>)
    requires LedgerOk(l, r) && h.0 in r.principals && r.principals[h.0] == principal
    ensures LedgerOk(l', r) && OnlyPending(l, l', h)
    ensures d.Ok? && d.value.AdmittedNow? ==> l'.LeaseOf(h) == Some(d.value.lease)
    ensures d.Ok? && d.value.Queued? ==> h in l'.tickets && l'.tickets[h] == d.value.ticket
    ensures d.Err? ==> h !in l'.pending
    ensures l.pending.Keys !! l.tickets.Keys ==> l'.pending.Keys !! l'.tickets.Keys
    ensures d == Decided(l, h, principal, key, memberships, maxMemberships, now)
    ensures if Known(l, h, memberships, maxMemberships).Some? then l' == l else Asked(l, l', h, principal, key, now, d)
  {
    var known := Known(l, h, memberships, maxMemberships);
    if known.Some? {
      KeepsAllSelf(l.controllers);
      UnknownHoldsNothing(l, r, h);
      return l, known.value;
    }
    l', d := AskIn(l, r, h, principal, key, now);
    AskedMeans(l, l', h, principal, key, now, d);
  }

  method AskIn(l: Ledger, ghost r: Roster, h: Holder, principal: nat, key: Option<Key>, now: nat)
    returns (l': Ledger, d: Result<Decision, CoreError>)
    requires LedgerOk(l, r) && h.0 in r.principals && r.principals[h.0] == principal
    requires h.1 in l.controllers && h !in l.pending && h !in l.bound
    ensures LedgerOk(l', r) && l'.bound == l.bound && KeepsAll(l.controllers, l'.controllers)
    ensures Asked(l, l', h, principal, key, now, d)
    ensures d == Filed(l.tickets, h, RequestJoin(l.controllers[h.1].state, principal, key, now).1)
  {
    var decision;
    l', decision := AskController(l, r, h, principal, key, now);
    d := Filed(l.tickets, h, decision);
    if d.Ok? && decision.Queued? {
      ghost var asked := l';
      l' := l'.(tickets := l'.tickets[h := decision.ticket]);
      TicketsFree(asked, l', r);
    }
  }

  lemma AskedMeans(l: Ledger, l': Ledger, h: Holder, principal: nat, key: Option<Key>, now: nat,
                   d: Result<Decision, CoreError>)
    requires Asked(l, l', h, principal, key, now, d) && l'.bound == l.bound && KeepsAll(l.controllers, l'.controllers)
    requires h !in l.pending && h !in l.bound && h !in l.tickets
    ensures OnlyPending(l, l', h) && (d.Err? ==> h !in l'.pending)
    ensures d.Ok? && d.value.AdmittedNow? ==> l'.LeaseOf(h) == Some(d.value.lease)
    ensures d.Ok? && d.value.Queued? ==> h in l'.tickets && l'.tickets[h] == d.value.ticket
    ensures l.pending.Keys !! l.tickets.Keys ==> l'.pending.Keys !! l'.tickets.Keys
  {
  }

  /** Remembered tickets are no part of the books. */
  lemma TicketsFree(l: Ledger, l': Ledger, r: Roster)
    requires LedgerOk(l, r) && l' == l.(tickets := l'.tickets)
    ensures LedgerOk(l', r)
  {
    assert l'.Held() == l.Held();
    TicketsFreeMembers(l, l', r.members);
  }

  lemma TicketsFreeMembers(l: Ledger, l': Ledger, members: set<Holder>)
    requires BoundMembers(l, members) && l' == l.(tickets := l'.tickets)
    ensures BoundMembers(l', members)
  {
  }

  // ------------------------------------------------------------------ binding

  /** The checks before a lease may become a membership. */
  function CheckBind(l: Ledger, h: Holder, principal: nat, lease: Lease): Option<CoreError> {
    if lease.session != h.1 || lease.principal != principal then Some(InvalidAdmissionLease(h.1))
    else if h in l.bound then if l.bound[h] == lease then None else Some(InvalidAdmissionLease(h.1))
    else if h !in l.pending || l.pending[h] != lease then Some(InvalidAdmissionLease(h.1))
    else if h.1 !in l.controllers then Some(AdmissionLeaseRequired(h.1))
    else if !l.controllers[h.1].state.Holds(lease) || (exists x | x in l.bound :: l.bound[x] == lease)
    then Some(InvalidAdmissionLease(h.1))
    else None
  }

  /** The lease a connection holds always passes its own binding checks. */
  lemma HeldLeaseBinds(l: Ledger, r: Roster, h: Holder)
    requires LedgerOk(l, r) && l.LeaseOf(h).Some?
    ensures h.0 in r.principals && CheckBind(l, h, r.principals[h.0], l.LeaseOf(h).value).None?
  {
    var lease := l.LeaseOf(h).value;
    HeldIs(l, h);
    HolderBacked(l, r, h);
    SessionAt(l.controllers, h.1);
    forall x | x in l.bound && l.bound[x] == lease ensures x == h { SameHolder(l, r, x, h); }
  }

  lemma HeldIs(l: Ledger, h: Holder)
    requires Apart(l) && l.LeaseOf(h).Some?
    ensures h in l.Held() && l.Held()[h] == l.LeaseOf(h).value
  {
  }

  lemma SameHolder(l: Ledger, r: Roster, x: Holder, h: Holder)
    requires ControllersOk(l.controllers) && Books(l.controllers, l.Held(), r.principals) && Apart(l)
    requires l.LeaseOf(h).Some? && l.LeaseOf(x) == l.LeaseOf(h)
    ensures x == h
  {
    HeldIs(l, x);
    HeldIs(l, h);
    HolderBacked(l, r, x);
    HolderBacked(l, r, h);
    SessionAt(l.controllers, x.1);
    SessionAt(l.controllers, h.1);
  }

  /** A connection may join on exactly the lease it holds. */
  lemma BindsExactly(l: Ledger, r: Roster, h: Holder, lease: Lease)
    requires LedgerOk(l, r) && h.0 in r.principals
    ensures CheckBind(l, h, r.principals[h.0], lease).None? <==> l.LeaseOf(h) == Some(lease)
  {
    if l.LeaseOf(h) == Some(lease) { HeldLeaseBinds(l, r, h); }
  }

  // ------------------------------------------------------------------ giving leases back

  ghost function Released(reason: ReleaseReason, now: nat): (State, Lease) -> State {
    (s: State, lease: Lease) => Release(s, lease, reason, now)
  }

  ghost function Cancelling(now: nat): (State, nat) -> State { (s: State, ticket: nat) => Cancel(s, ticket, now).0 }

  /** The controller of `sk` did `f` for what `c` held there, if it holds it no longer. */
  ghost predicate Did<V>(f: (State, V) -> State, cs: Controllers, cs': Controllers, held: map<Holder, V>,
                         left: map<Holder, V>, c: nat, sk: SessionKey) {
    && sk in cs && sk in cs'
    && cs'[sk].state == if (c, sk) in held && (c, sk) !in left then f(cs[sk].state, held[(c, sk)]) else cs[sk].state
  }

  ghost predicate AllDid<V>(f: (State, V) -> State, cs: Controllers, cs': Controllers, held: map<Holder, V>,
                            left: map<Holder, V>, c: nat) {
    && cs'.Keys == cs.Keys && (forall h | h in left :: h in held && left[h] == held[h])
    && forall sk {:trigger Did(f, cs, cs', held, left, c, sk)} | sk in cs :: Did(f, cs, cs', held, left, c, sk)
  }

  lemma DidNothing<V>(f: (State, V) -> State, cs: Controllers, held: map<Holder, V>, c: nat)
    ensures AllDid(f, cs, cs, held, held, c)
  {
    forall sk | sk in cs ensures Did(f, cs, cs, held, held, c, sk) {}
  }

  lemma DidNext<V>(f: (State, V) -> State, cs: Controllers, cs1: Controllers, cs2: Controllers, held: map<Holder, V>,
                   left: map<Holder, V>, h: Holder)
    requires AllDid(f, cs, cs1, held, left, h.0) && h in left
    requires if h.1 in cs1 then Turned(cs1, cs2, h.1, f(cs1[h.1].state, left[h])) else cs2 == cs1
    ensures AllDid(f, cs, cs2, held, left - {h}, h.0)
  {
    forall sk | sk in cs ensures Did(f, cs, cs2, held, left - {h}, h.0, sk) {
      assert Did(f, cs, cs1, held, left, h.0, sk);
    }
  }

  method ReleasePendingIn(l: Ledger, ghost r: Roster, h: Holder, now: nat) returns (l': Ledger)
    requires LedgerOk(l, r) && h in l.pending
    ensures LedgerOk(l', r) && l'.pending == l.pending - {h} && l'.bound == l.bound && l'.tickets == l.tickets
    ensures KeepsAll(l.controllers, l'.controllers) && h.1 in l.controllers
    ensures Turned(l.controllers, l'.controllers, h.1,
                   Released(Intentional, now)(l.controllers[h.1].state, l.pending[h]))
  {
    HeldIs(l, h);
    HolderBacked(l, r, h);
    var c' := ReleaseFrom(l.controllers, h.1, l.pending[h], Intentional, now);
    ReleasesPending(l, r, h, c');
    l' := l.(controllers := l.controllers[h.1 := c'], pending := l.pending - {h});
  }

  method ReleaseBoundIn(l: Ledger, ghost r: Roster, h: Holder, reason: ReleaseReason, now: nat) returns (l': Ledger)
    requires LedgerOk(l, r) && h in l.bound
    ensures LedgerOk(l', r.(members := r.members - {h}))
    ensures l'.bound == l.bound - {h} && l'.pending == l.pending && l'.tickets == l.tickets
    ensures KeepsAll(l.controllers, l'.controllers) && h.1 in l.controllers
    ensures Turned(l.controllers, l'.controllers, h.1, Released(reason, now)(l.controllers[h.1].state, l.bound[h]))
  {
    HeldIs(l, h);
    HolderBacked(l, r, h);
    var c' := ReleaseFrom(l.controllers, h.1, l.bound[h], reason, now);
    ReleasesBound(l, r, h, c');
    l' := l.(controllers := l.controllers[h.1 := c'], bound := l.bound - {h});
  }

  lemma UnboundLeaves(l: Ledger, r: Roster, h: Holder)
    requires LedgerOk(l, r) && h !in l.bound
    ensures LedgerOk(l, r.(members := r.members - {h}))
  {
    UnboundLeavesMembers(l, r.members, h);
  }

  lemma UnboundLeavesMembers(l: Ledger, members: set<Holder>, h: Holder)
    requires BoundMembers(l, members) && h !in l.bound
    ensures BoundMembers(l, members - {h})
  {
  }

  // ------------------------------------------------------------------ losing a connection

  ghost function WithoutConnection(r: Roster, c: nat): Roster {
    Roster(r.principals - {c}, set h | h in r.members && h.0 != c)
  }

  ghost predicate NoneOf<V>(m: map<Holder, V>, c: nat) { forall h | h in m :: h.0 != c }

  /** Only the memberships of `c` may have gone. */
  ghost predicate LessOf(r: Roster, r': Roster, c: nat) {
    && r'.principals == r.principals && r'.members <= r.members
    && forall h | h in r.members && h.0 != c :: h in r'.members
  }

  lemma Gone(l: Ledger, r: Roster, r': Roster, c: nat)
    requires LedgerOk(l, r') && LessOf(r, r', c) && NoneOf(l.bound, c) && NoneOf(l.pending, c)
    ensures LedgerOk(l, WithoutConnection(r, c))
  {
    GoneBooks(l, r.principals, c);
    GoneMembers(l, r, r', c);
  }

  lemma GoneBooks(l: Ledger, principals: map<nat, nat>, c: nat)
    requires Books(l.controllers, l.Held(), principals) && NoneOf(l.bound, c) && NoneOf(l.pending, c)
    ensures Books(l.controllers, l.Held(), principals - {c})
  {
  }

  lemma GoneMembers(l: Ledger, r: Roster, r': Roster, c: nat)
    requires BoundMembers(l, r'.members) && LessOf(r, r', c) && NoneOf(l.bound, c)
    ensures BoundMembers(l, WithoutConnection(r, c).members)
  {
  }

  /** The bound leases of `c` that are still to be given back. */
  function HeldOf<V>(m: map<Holder, V>, c: nat): set<Holder> { set h | h in m && h.0 == c }

  /** Part of the bound leases of `c` given back. */
  ghost predicate Releasing(l: Ledger, l': Ledger, r: Roster, r': Roster, c: nat) {
    && LedgerOk(l', r') && LessOf(r, r', c) && l'.pending == l.pending && l'.tickets == l.tickets
    && KeepsAll(l.controllers, l'.controllers) && OthersKeep(l.bound, l'.bound, c)
  }

  method ReleaseNextBound(ghost l: Ledger, l1: Ledger, ghost r: Roster, ghost r1: Roster, c: nat, h: Holder, now: nat)
    returns (l2: Ledger, ghost r2: Roster)
    requires Releasing(l, l1, r, r1, c) && h in l1.bound && h.0 == c
    requires AllDid(Released(Unexpected, now), l.controllers, l1.controllers, l.bound, l1.bound, c)
    ensures Releasing(l, l2, r, r2, c) && |l2.bound| < |l1.bound|
    ensures AllDid(Released(Unexpected, now), l.controllers, l2.controllers, l.bound, l2.bound, c)
  {
    RemoveHolder(l1.bound, h);
    l2 := ReleaseBoundIn(l1, r1, h, Unexpected, now);
    KeepsAllTransitive(l.controllers, l1.controllers, l2.controllers);
    r2 := r1.(members := r1.members - {h});
    KeepStep(l.bound, l1.bound, h);
    LessStep(r, r1, h);
    DidNext(Released(Unexpected, now), l.controllers, l1.controllers, l2.controllers, l.bound, l1.bound, h);
  }

  lemma KeepStep<V>(m: map<Holder, V>, m1: map<Holder, V>, h: Holder)
    requires OthersKeep(m, m1, h.0)
    ensures OthersKeep(m, m1 - {h}, h.0)
  {
  }

  lemma LessStep(r: Roster, r1: Roster, h: Holder)
    requires LessOf(r, r1, h.0)
    ensures LessOf(r, r1.(members := r1.members - {h}), h.0)
  {
  }

  method ReleaseAllBound(l: Ledger, ghost r: Roster, c: nat, now: nat) returns (l': Ledger, ghost r': Roster)
    requires LedgerOk(l, r)
    ensures LedgerOk(l', r') && LessOf(r, r', c) && NoneOf(l'.bound, c) && l'.pending == l.pending
            && l'.tickets == l.tickets
    ensures KeepsAll(l.controllers, l'.controllers) && OthersKeep(l.bound, l'.bound, c)
    ensures AllDid(Released(Unexpected, now), l.controllers, l'.controllers, l.bound, l'.bound, c)
  {
    l', r' := l, r;
    KeepsAllSelf(l.controllers);
    DidNothing(Released(Unexpected, now), l.controllers, l.bound, c);
    while HeldOf(l'.bound, c) != {}
      invariant Releasing(l, l', r, r', c)
      invariant AllDid(Released(Unexpected, now), l.controllers, l'.controllers, l.bound, l'.bound, c)
      decreases |l'.bound|
    {
      var h :| h in HeldOf(l'.bound, c);
      l', r' := ReleaseNextBound(l, l', r, r', c, h, now);
    }
    NothingHeld(l'.bound, c);
  }

  ghost predicate OthersKeep<V>(m: map<Holder, V>, m': map<Holder, V>, c: nat) {
    forall h: Holder | h.0 != c :: (h in m' <==> h in m) && (h in m ==> m'[h] == m[h])
  }

  lemma RemoveHolder<V>(m: map<Holder, V>, h: Holder)
    requires h in m
    ensures |m - {h}| < |m|
  {
    assert (m - {h}).Keys == m.Keys - {h};
  }

  lemma NothingHeld<V>(m: map<Holder, V>, c: nat)
    requires HeldOf(m, c) == {}
    ensures NoneOf(m, c)
  {
    forall h | h in m ensures h.0 != c { assert h !in HeldOf(m, c); }
  }

  method ReleaseAllPending(l: Ledger, ghost r: Roster, c: nat, now: nat) returns (l': Ledger)
    requires LedgerOk(l, r)
    ensures LedgerOk(l', r) && NoneOf(l'.pending, c) && l'.bound == l.bound && l'.tickets == l.tickets
    ensures KeepsAll(l.controllers, l'.controllers) && OthersKeep(l.pending, l'.pending, c)
    ensures AllDid(Released(Intentional, now), l.controllers, l'.controllers, l.pending, l'.pending, c)
  {
    l' := l;
    KeepsAllSelf(l.controllers);
    DidNothing(Released(Intentional, now), l.controllers, l.pending, c);
    while HeldOf(l'.pending, c) != {}
      invariant AllDid(Released(Intentional, now), l.controllers, l'.controllers, l.pending, l'.pending, c)
      invariant LedgerOk(l', r) && l'.bound == l.bound && l'.tickets == l.tickets
      invariant KeepsAll(l.controllers, l'.controllers) && OthersKeep(l.pending, l'.pending, c)
      decreases |l'.pending|
    {
      var h :| h in HeldOf(l'.pending, c);
      RemoveHolder(l'.pending, h);
      KeepStep(l.pending, l'.pending, h);
      ghost var before := l';
      l' := ReleasePendingIn(l', r, h, now);
      KeepsAllTransitive(l.controllers, before.controllers, l'.controllers);
      DidNext(Released(Intentional, now), l.controllers, before.controllers, l'.controllers,
              l.pending, before.pending, h);
    }
    NothingHeld(l'.pending, c);
  }

  method CancelTicket(l: Ledger, ghost r: Roster, h: Holder, now: nat) returns (l': Ledger)
    requires LedgerOk(l, r) && h in l.tickets
    ensures LedgerOk(l', r) && l'.bound == l.bound && l'.pending == l.pending && l'.tickets == l.tickets - {h}
    ensures KeepsAll(l.controllers, l'.controllers)
    ensures if h.1 in l.controllers
            then Turned(l.controllers, l'.controllers, h.1, Cancelling(now)(l.controllers[h.1].state, l.tickets[h]))
            else l'.controllers == l.controllers
  {
    l' := l;
    KeepsAllSelf(l.controllers);
    if h.1 in l.controllers {
      var c' := CancelAt(l.controllers, h.1, l.tickets[h], now);
      Idle(l, r, h.1, c');
      l' := l.(controllers := l.controllers[h.1 := c']);
    }
    ghost var asked := l';
    l' := l'.(tickets := l'.tickets - {h});
    TicketsFree(asked, l', r);
  }

  method CancelAllTickets(l: Ledger, ghost r: Roster, c: nat, now: nat) returns (l': Ledger)
    requires LedgerOk(l, r)
    ensures LedgerOk(l', r) && NoneOf(l'.tickets, c) && l'.bound == l.bound && l'.pending == l.pending
    ensures KeepsAll(l.controllers, l'.controllers) && OthersKeep(l.tickets, l'.tickets, c)
    ensures AllDid(Cancelling(now), l.controllers, l'.controllers, l.tickets, l'.tickets, c)
  {
    l' := l;
    KeepsAllSelf(l.controllers);
    DidNothing(Cancelling(now), l.controllers, l.tickets, c);
    while HeldOf(l'.tickets, c) != {}
      invariant AllDid(Cancelling(now), l.controllers, l'.controllers, l.tickets, l'.tickets, c)
      invariant LedgerOk(l', r) && l'.bound == l.bound && l'.pending == l.pending
      invariant KeepsAll(l.controllers, l'.controllers) && OthersKeep(l.tickets, l'.tickets, c)
      decreases |l'.tickets|
    {
      var h :| h in HeldOf(l'.tickets, c);
      RemoveHolder(l'.tickets, h);
      ghost var before := l';
      l' := CancelTicket(l', r, h, now);
      KeepsAllTransitive(l.controllers, before.controllers, l'.controllers);
      DidNext(Cancelling(now), l.controllers, before.controllers, l'.controllers, l.tickets, before.tickets, h);
    }
    NothingHeld(l'.tickets, c);
  }

  /** Everything a lost connection held or queued for is given back; all others keep what they have. */
  method LoseHolder(l: Ledger, ghost r: Roster, c: nat, now: nat) returns (l': Ledger)
    requires LedgerOk(l, r)
    ensures LedgerOk(l', WithoutConnection(r, c)) && KeepsAll(l.controllers, l'.controllers)
    ensures NoneOf(l'.bound, c) && NoneOf(l'.pending, c) && NoneOf(l'.tickets, c)
    ensures OthersKeep(l.bound, l'.bound, c) && OthersKeep(l.pending, l'.pending, c)
            && OthersKeep(l.tickets, l'.tickets, c)
    ensures AllGivenUp(l, l', c, now)
  {
    ghost var r';
    l', r' := ReleaseAllBound(l, r, c, now);
    ghost var l1 := l';
    l' := ReleaseAllPending(l', r', c, now);
    ghost var l2 := l';
    l' := CancelAllTickets(l', r', c, now);
    KeepsAllTransitive(l.controllers, l1.controllers, l2.controllers);
    KeepsAllTransitive(l.controllers, l2.controllers, l'.controllers);
    Gone(l', r, r', c);
    forall sk | sk in l.controllers ensures GivenUp(l, l', c, sk, now) { GivesUp(l, l1, l2, l', c, sk, now); }
  }

  /** What the loss of a connection does at one controller: its bound lease is released as lost unexpectedly, a pending
      one as given back, its ticket is cancelled, and nothing else happens there. */
  ghost predicate GivenUp(l: Ledger, l': Ledger, c: nat, sk: SessionKey, now: nat) {
    && sk in l.controllers && sk in l'.controllers
    && var s := l.controllers[sk].state;
       var s1 := if (c, sk) in l.bound then Release(s, l.bound[(c, sk)], Unexpected, now) else s;
       var s2 := if (c, sk) in l.pending then Release(s1, l.pending[(c, sk)], Intentional, now) else s1;
       l'.controllers[sk].state == if (c, sk) in l.tickets then Cancel(s2, l.tickets[(c, sk)], now).0 else s2
  }

  ghost predicate AllGivenUp(l: Ledger, l': Ledger, c: nat, now: nat) {
    forall sk {:trigger GivenUp(l, l', c, sk, now)} | sk in l.controllers :: GivenUp(l, l', c, sk, now)
  }

  lemma GivesUp(l: Ledger, l1: Ledger, l2: Ledger, l3: Ledger, c: nat, sk: SessionKey, now: nat)
    requires AllDid(Released(Unexpected, now), l.controllers, l1.controllers, l.bound, l1.bound, c)
             && NoneOf(l1.bound, c)
    requires AllDid(Released(Intentional, now), l1.controllers, l2.controllers, l.pending, l2.pending, c)
             && NoneOf(l2.pending, c)
    requires AllDid(Cancelling(now), l2.controllers, l3.controllers, l.tickets, l3.tickets, c) && NoneOf(l3.tickets, c)
    requires sk in l.controllers
    ensures GivenUp(l, l3, c, sk, now)
  {
    assert Did(Released(Unexpected, now), l.controllers, l1.controllers, l.bound, l1.bound, c, sk);
    assert Did(Released(Intentional, now), l1.controllers, l2.controllers, l.pending, l2.pending, c, sk);
    assert Did(Cancelling(now), l2.controllers, l3.controllers, l.tickets, l3.tickets, c, sk);
  }
}
