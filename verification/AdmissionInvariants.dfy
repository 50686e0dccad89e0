/** What every admission operation keeps: capacity, fairness of the queue and the bounds of the ticket
    table. */
module AdmissionInvariants {
  import opened Model
  import opened Admission
  import Cache

  ghost predicate IdsOk(s: State) {
    && (forall id | id in s.tickets :: 0 < id < s.nextTicket)
    && (forall l | l in s.active :: 0 < l < s.nextLease)
    && (forall l | l in s.reservations :: 0 < l < s.nextLease && l !in s.active)
    && 0 < s.nextTicket && 0 < s.nextLease
  }

  /** A ticket carries a finishing time exactly when it is finished. */
  ghost predicate EntriesOk(t: Tickets) {
    forall id | id in t :: t[id].terminalAt.Some? <==> !t[id].state.Live()
  }

  ghost predicate OneLive(t: Tickets) {
    forall a, b | a in t && b in t && t[a].state.Live() && t[b].state.Live()
      && t[a].principal == t[b].principal :: a == b
  }

  /** Every offer went to a ticket older than all that still wait. */
  ghost predicate Fair(t: Tickets) {
    forall a, b | a in t && b in t && t[a].state.Offered? && t[b].state.Waiting? :: a < b
  }

  ghost predicate DepthOk(s: State) { |LiveIds(s.tickets)| <= s.policy.maxDepth }

  ghost predicate TicketsOk(s: State) {
    EntriesOk(s.tickets) && OneLive(s.tickets) && Fair(s.tickets) && DepthOk(s)
  }

  ghost predicate CapacityOk(s: State) {
    s.Occupied() <= s.capacity <= U32_MAX && (s.pending.Some? ==> s.pending.value <= s.capacity)
  }

  /** A pending decrease lies strictly below occupancy, and nobody waits while a slot is free. */
  ghost predicate Settled(s: State) {
    && (s.pending.Some? ==> s.pending.value < s.Occupied())
    && (WaitingIds(s.tickets) != {} ==> s.Occupied() >= s.Limit())
  }

  ghost predicate Retained(s: State) { |TerminalIds(s.tickets)| <= MAX_TERMINAL }

  ghost predicate Base(s: State) { IdsOk(s) && TicketsOk(s) && CapacityOk(s) }

  ghost predicate AdmissionOk(s: State) { Base(s) && Retained(s) && Settled(s) }

  // ------------------------------------------------------------------ evolution

  /** Old tickets keep their identity, finished ones never change, and only new tickets start to wait. */
  ghost predicate TicketsEvolve(s: State, s': State) {
    && s.nextTicket <= s'.nextTicket
    && forall id | id in s'.tickets && id < s.nextTicket ::
         && id in s.tickets && s'.tickets[id].principal == s.tickets[id].principal
            && s'.tickets[id].key == s.tickets[id].key
         && (s'.tickets[id].state.Waiting? ==> s.tickets[id].state.Waiting?)
         && (s.tickets[id].terminalAt.Some? ==> s'.tickets[id] == s.tickets[id])
  }

  ghost predicate Evolves(s: State, s': State) {
    && s'.session == s.session && s'.policy == s.policy
    && s.nextLease <= s'.nextLease && s.revision <= s'.revision
    && TicketsEvolve(s, s')
  }

  /** Evolution at an unchanged limit and revision. */
  ghost predicate Keeps(s: State, s': State) {
    Evolves(s, s') && s'.revision == s.revision && s'.Limit() == s.Limit()
  }

  lemma EvolvesTransitive(s1: State, s2: State, s3: State)
    requires Evolves(s1, s2) && Evolves(s2, s3)
    ensures Evolves(s1, s3)
  {
  }

  lemma KeepsTransitive(s1: State, s2: State, s3: State)
    requires Keeps(s1, s2) && Keeps(s2, s3)
    ensures Keeps(s1, s3)
  {
  }

  // ------------------------------------------------------------------ promotion

  lemma OfferOk(s: State, id: nat, now: nat)
    requires Base(s) && s.Occupied() < s.Limit() && Least(WaitingIds(s.tickets), id)
    ensures Base(s.(tickets := Offer(s.tickets, s.policy, id, now)))
  {
    var s' := s.(tickets := Offer(s.tickets, s.policy, id, now));
    OfferShrinks(s.tickets, s.policy, id, now);
    assert LiveIds(s'.tickets) == LiveIds(s.tickets);
    OfferFair(s.tickets, s.policy, id, now);
  }

  lemma OfferFair(t: Tickets, p: QueuePolicy, id: nat, now: nat)
    requires Fair(t) && Least(WaitingIds(t), id)
    ensures Fair(Offer(t, p, id, now))
  {
    var t' := Offer(t, p, id, now);
    forall a, b | a in t' && b in t' && t'[a].state.Offered? && t'[b].state.Waiting? ensures a < b {
      assert b in WaitingIds(t);
    }
  }

  lemma OfferKeeps(s: State, id: nat, now: nat)
    requires EntriesOk(s.tickets) && id in WaitingIds(s.tickets)
    ensures var s' := s.(tickets := Offer(s.tickets, s.policy, id, now));
            Keeps(s, s') && TerminalIds(s'.tickets) == TerminalIds(s.tickets)
  {
  }

  lemma {:induction false} PromoteOk(s: State, now: nat)
    requires Base(s) && (s.pending.Some? ==> s.pending.value < s.Occupied())
    ensures var s' := Promote(s, now);
            && Base(s') && Settled(s') && Keeps(s, s')
            && TerminalIds(s'.tickets) == TerminalIds(s.tickets) && SameLeases(s, s')
    decreases |WaitingIds(s.tickets)|
  {
    if s.Occupied() < s.Limit() && WaitingIds(s.tickets) != {} {
      var id := Min(WaitingIds(s.tickets));
      var s1 := s.(tickets := Offer(s.tickets, s.policy, id, now));
      OfferShrinks(s.tickets, s.policy, id, now);
      OfferOk(s, id, now);
      OfferKeeps(s, id, now);
      PromoteOk(s1, now);
      KeepsTransitive(s, s1, Promote(s, now));
    }
  }

  /** Leases and reservations untouched. */
  ghost predicate SameLeases(s: State, s': State) {
    s'.active == s.active && s'.reservations == s.reservations && s'.nextLease == s.nextLease
  }

  lemma SettleOk(s: State, now: nat)
    requires Base(s) && Retained(s)
    ensures var s' := Settle(s, now); AdmissionOk(s') && Keeps(s, s') && SameLeases(s, s')
  {
    var s1 := ApplyPending(s);
    assert Base(s1) && Keeps(s, s1);
    PromoteOk(s1, now);
    KeepsTransitive(s, s1, Settle(s, now));
  }

  // ------------------------------------------------------------------ expiry and pruning

  /** Some tickets were finished or dropped; nothing else happened to the table. */
  ghost predicate Thins(t: Tickets, t': Tickets) {
    forall id | id in t' ::
      && id in t && t'[id].principal == t[id].principal && t'[id].key == t[id].key
      && (t'[id].terminalAt.None? ==> t'[id] == t[id])
      && (t[id].terminalAt.Some? ==> t'[id] == t[id])
  }

  lemma ThinSizes(s: State, s': State)
    requires Thins(s.tickets, s'.tickets) && EntriesOk(s.tickets) && EntriesOk(s'.tickets)
    ensures |OfferedIds(s'.tickets)| <= |OfferedIds(s.tickets)| && |LiveIds(s'.tickets)| <= |LiveIds(s.tickets)|
  {
    Cache.SubsetSize(OfferedIds(s'.tickets), OfferedIds(s.tickets));
    Cache.SubsetSize(LiveIds(s'.tickets), LiveIds(s.tickets));
  }

  lemma ThinOk(s: State, s': State)
    requires Base(s) && Thins(s.tickets, s'.tickets) && EntriesOk(s'.tickets)
    requires s' == s.(tickets := s'.tickets, reservations := s'.reservations)
    requires s'.reservations.Keys <= s.reservations.Keys
    ensures Base(s') && Keeps(s, s') && s'.Occupied() <= s.Occupied()
  {
    ThinSizes(s, s');
    Cache.SubsetSize(s'.reservations.Keys, s.reservations.Keys);
  }

  lemma ExpireThins(p: QueuePolicy, t: Tickets, now: nat)
    requires EntriesOk(t)
    ensures Thins(t, Prune(ExpireTickets(p, t, now), now)) && EntriesOk(Prune(ExpireTickets(p, t, now), now))
    ensures |TerminalIds(Prune(ExpireTickets(p, t, now), now))| <= MAX_TERMINAL
  {
    PruneKeepsLive(ExpireTickets(p, t, now), now);
  }

  /** Expiry keeps all invariants and touches no active lease. */
  lemma ExpireOk(s: State, now: nat)
    requires AdmissionOk(s)
    ensures var s' := Expire(s, now);
            AdmissionOk(s') && Keeps(s, s') && s'.active == s.active && s'.nextLease == s.nextLease
              && s'.nextTicket == s.nextTicket
  {
    var s1 := s.(reservations := Unexpired(s.reservations, now),
                 tickets := Prune(ExpireTickets(s.policy, s.tickets, now), now));
    ExpireThins(s.policy, s.tickets, now);
    ThinOk(s, s1);
    SettleOk(s1, now);
    SettleTickets(s1, now);
    KeepsTransitive(s, s1, Expire(s, now));
  }

  lemma {:induction false} PromoteTickets(s: State, now: nat)
    ensures Promote(s, now).nextTicket == s.nextTicket
    decreases |WaitingIds(s.tickets)|
  {
    if s.Occupied() < s.Limit() && WaitingIds(s.tickets) != {} {
      var id := Min(WaitingIds(s.tickets));
      OfferShrinks(s.tickets, s.policy, id, now);
      PromoteTickets(s.(tickets := Offer(s.tickets, s.policy, id, now)), now);
    }
  }

  lemma SettleTickets(s: State, now: nat)
    ensures Settle(s, now).nextTicket == s.nextTicket
  {
    PromoteTickets(ApplyPending(s), now);
  }

  // ------------------------------------------------------------------ admission and the queue

  lemma AdmitOk(s: State, principal: nat)
    requires Base(s) && s.Occupied() < s.capacity
    ensures var (s', lease) := Admit(s, principal);
            Base(s') && Evolves(s, s') && s'.Occupied() == s.Occupied() + 1 && s'.Holds(lease) && lease.id !in s.active
  {
    var (s', lease) := Admit(s, principal);
    assert s'.active.Keys == s.active.Keys + {s.nextLease};
  }

  lemma EnqueueSets(t: Tickets, id: nat, e: Entry)
    requires id !in t && e.state.Waiting? && e.terminalAt.None?
    ensures OfferedIds(t[id := e]) == OfferedIds(t) && TerminalIds(t[id := e]) == TerminalIds(t)
    ensures |LiveIds(t[id := e])| == |LiveIds(t)| + 1
  {
    assert LiveIds(t[id := e]) == LiveIds(t) + {id};
  }

  lemma EnqueueTable(s: State, principal: nat, key: Key, now: nat)
    requires IdsOk(s) && EntriesOk(s.tickets) && Fair(s.tickets)
    ensures var s' := Enqueue(s, principal, key, now);
            IdsOk(s') && EntriesOk(s'.tickets) && Fair(s'.tickets) && TicketsEvolve(s, s') && s.nextTicket !in s.tickets
  {
  }

  lemma EnqueueOk(s: State, principal: nat, key: Key, now: nat)
    requires Base(s) && |LiveIds(s.tickets)| < s.policy.maxDepth && !exists id :: LiveTicketOf(s.tickets, principal, id)
    ensures var s' := Enqueue(s, principal, key, now);
            && Base(s') && Keeps(s, s') && s'.Occupied() == s.Occupied()
               && TerminalIds(s'.tickets) == TerminalIds(s.tickets)
  {
    EnqueueTable(s, principal, key, now);
    EnqueueSets(s.tickets, s.nextTicket, Entry(principal, key, now, now, Waiting, None));
    EnqueueOneLive(s, principal, key, now);
  }

  lemma EnqueueOneLive(s: State, principal: nat, key: Key, now: nat)
    requires OneLive(s.tickets) && !exists id :: LiveTicketOf(s.tickets, principal, id)
    ensures OneLive(Enqueue(s, principal, key, now).tickets)
  {
    var t, t' := s.tickets, Enqueue(s, principal, key, now).tickets;
    forall a, b | a in t' && b in t' && t'[a].state.Live() && t'[b].state.Live()
      && t'[a].principal == t'[b].principal ensures a == b {
      assert !LiveTicketOf(t, principal, a) && !LiveTicketOf(t, principal, b);
    }
  }

  ghost predicate Joined(s: State, principal: nat, s': State, d: Decision) {
    && (d.AdmittedNow? ==> WaitingIds(s.tickets) == {} && s'.Holds(d.lease) && d.lease.principal == principal
                           && d.lease.id !in s.active && s'.active == s.active[d.lease.id := principal])
    && (!d.AdmittedNow? ==> s'.active == s.active)
    && (d.Queued? ==> LiveTicketOf(s'.tickets, principal, d.ticket))
  }

  lemma JoinNowOk(s: State, principal: nat, key: Option<Key>, now: nat)
    requires AdmissionOk(s)
    ensures var (s', d) := JoinNow(s, principal, key, now);
            AdmissionOk(s') && Keeps(s, s') && Joined(s, principal, s', d)
  {
    var (s', d) := JoinNow(s, principal, key, now);
    if d.AdmittedNow? {
      AdmitOk(s, principal);
    } else if s' != s {
      EnqueueOk(s, principal, key.value, now);
    }
  }

  /** A join admits at once only when nobody waits, and otherwise issues or repeats one ticket. */
  lemma RequestJoinOk(s: State, principal: nat, key: Option<Key>, now: nat)
    requires AdmissionOk(s)
    ensures var (s', d) := RequestJoin(s, principal, key, now);
            AdmissionOk(s') && Keeps(s, s') && Joined(Expire(s, now), principal, s', d)
              && Expire(s, now).active == s.active
  {
    ExpireOk(s, now);
    JoinNowOk(Expire(s, now), principal, key, now);
    KeepsTransitive(s, Expire(s, now), RequestJoin(s, principal, key, now).0);
  }

  lemma BeatSets(t: Tickets, id: nat, now: nat)
    requires id in t
    ensures var t' := t[id := t[id].(heartbeat := now)];
            && OfferedIds(t') == OfferedIds(t) && WaitingIds(t') == WaitingIds(t)
            && LiveIds(t') == LiveIds(t) && TerminalIds(t') == TerminalIds(t)
  {
  }

  lemma BeatOk(s: State, id: nat, now: nat)
    requires AdmissionOk(s) && id in s.tickets && s.tickets[id].state.Waiting?
    ensures var s' := s.(tickets := s.tickets[id := s.tickets[id].(heartbeat := now)]); AdmissionOk(s') && Keeps(s, s')
  {
    BeatSets(s.tickets, id, now);
    BeatTable(s, id, now);
  }

  lemma BeatTable(s: State, id: nat, now: nat)
    requires IdsOk(s) && EntriesOk(s.tickets) && OneLive(s.tickets) && Fair(s.tickets) && id in s.tickets
             && s.tickets[id].state.Waiting?
    ensures var s' := s.(tickets := s.tickets[id := s.tickets[id].(heartbeat := now)]);
            IdsOk(s') && EntriesOk(s'.tickets) && OneLive(s'.tickets) && Fair(s'.tickets) && TicketsEvolve(s, s')
  {
  }

  lemma HeartbeatOk(s: State, id: nat, now: nat)
    requires AdmissionOk(s)
    ensures var s' := Heartbeat(s, id, now); AdmissionOk(s') && Keeps(s, s') && s'.active == s.active
  {
    var s1 := Expire(s, now);
    ExpireOk(s, now);
    if id in s1.tickets && s1.tickets[id].state.Waiting? {
      BeatOk(s1, id, now);
      KeepsTransitive(s, s1, Heartbeat(s, id, now));
    }
  }

  lemma FinishThins(t: Tickets, id: nat, state: TicketState, now: nat)
    requires EntriesOk(t) && id in t && t[id].state.Live() && !state.Live()
    ensures var t' := Prune(Finish(t, id, state, now), now);
            Thins(t, t') && EntriesOk(t') && |TerminalIds(t')| <= MAX_TERMINAL
  {
    PruneKeepsLive(Finish(t, id, state, now), now);
  }

  lemma FinishTicketOk(s: State, id: nat, state: TicketState, now: nat)
    requires Base(s) && id in s.tickets && s.tickets[id].state.Live() && !state.Live()
    ensures var s' := FinishTicket(s, id, state, now);
            && Base(s') && Retained(s') && Keeps(s, s') && s'.Occupied() <= s.Occupied()
            && (id in s'.tickets ==> s'.tickets[id] == s.tickets[id].(state := state, terminalAt := Some(now)))
  {
    FinishThins(s.tickets, id, state, now);
    PruneKeepsLive(Finish(s.tickets, id, state, now), now);
    ThinOk(s, FinishTicket(s, id, state, now));
  }

  lemma CancelNowOk(s: State, id: nat, now: nat)
    requires AdmissionOk(s)
    ensures var (s', r) := CancelNow(s, id, now);
            && AdmissionOk(s') && Keeps(s, s') && s'.active == s.active
            && (id in s'.tickets ==> s'.tickets[id].terminalAt.Some?)
  {
    if id in s.tickets && s.tickets[id].state.Live() {
      var s1 := FinishTicket(s, id, Cancelled, now);
      FinishTicketOk(s, id, Cancelled, now);
      SettleOk(s1, now);
      KeepsTransitive(s, s1, Settle(s1, now));
    }
  }

  /** A cancelled ticket is never live again. */
  lemma CancelOk(s: State, id: nat, now: nat)
    requires AdmissionOk(s)
    ensures var (s', r) := Cancel(s, id, now);
            && AdmissionOk(s') && Keeps(s, s') && s'.active == s.active
            && (id in s'.tickets ==> s'.tickets[id].terminalAt.Some?)
  {
    ExpireOk(s, now);
    CancelNowOk(Expire(s, now), id, now);
    KeepsTransitive(s, Expire(s, now), Cancel(s, id, now).0);
  }

  /** One offer fewer, one slot free for the lease that replaces it. */
  lemma ClaimFrees(s: State, id: nat, now: nat)
    requires EntriesOk(s.tickets) && id in s.tickets && s.tickets[id].state.Offered?
    ensures var t' := FinishTicket(s, id, Admitted(s.nextLease), now).tickets;
            OfferedIds(t') == OfferedIds(s.tickets) - {id} && |OfferedIds(t')| == |OfferedIds(s.tickets)| - 1
            && WaitingIds(t') == WaitingIds(s.tickets)
  {
    PruneKeepsLive(Finish(s.tickets, id, Admitted(s.nextLease), now), now);
    assert OfferedIds(FinishTicket(s, id, Admitted(s.nextLease), now).tickets) == OfferedIds(s.tickets) - {id};
  }

  ghost predicate Claimed(s: State, id: nat, s': State, lease: Lease) {
    && s'.Holds(lease) && lease.id !in s.active && s'.active == s.active[lease.id := lease.principal]
    && id in s.tickets && s.tickets[id].principal == lease.principal
    && (id in s'.tickets ==> s'.tickets[id].state == Admitted(lease.id) && s'.tickets[id].principal == lease.principal)
  }

  lemma ClaimOffered(s: State, id: nat, now: nat)
    requires Base(s) && id in s.tickets && s.tickets[id].state.Offered?
    ensures var s1 := FinishTicket(s, id, Admitted(s.nextLease), now);
            && Base(s1) && Retained(s1) && Keeps(s, s1)
            && s1.Occupied() + 1 == s.Occupied() && WaitingIds(s1.tickets) == WaitingIds(s.tickets)
  {
    FinishTicketOk(s, id, Admitted(s.nextLease), now);
    ClaimFrees(s, id, now);
  }

  lemma ClaimIssues(s: State, id: nat, now: nat)
    requires Base(s) && id in s.tickets && s.tickets[id].state.Offered?
    ensures var (s', lease) := Admit(FinishTicket(s, id, Admitted(s.nextLease), now), s.tickets[id].principal);
            Claimed(s, id, s', lease)
  {
    FinishTicketOk(s, id, Admitted(s.nextLease), now);
  }

  lemma ClaimNowOk(s: State, id: nat, now: nat)
    requires AdmissionOk(s)
    ensures var (s', r) := ClaimNow(s, id, now);
            && AdmissionOk(s') && Keeps(s, s') && s'.Occupied() == s.Occupied()
            && (r.Ok? ==> Claimed(s, id, s', r.value))
            && (r.Err? ==> s' == s)
  {
    if id in s.tickets && s.tickets[id].state.Offered? {
      var s1 := FinishTicket(s, id, Admitted(s.nextLease), now);
      ClaimOffered(s, id, now);
      AdmitOk(s1, s.tickets[id].principal);
      AdmitSettles(s, s1, s.tickets[id].principal);
      ClaimIssues(s, id, now);
    }
  }

  /** The lease takes exactly the slot that was freed. */
  lemma AdmitSettles(s: State, s1: State, principal: nat)
    requires Settled(s) && Keeps(s, s1) && s1.Occupied() + 1 == s.Occupied()
             && WaitingIds(s1.tickets) == WaitingIds(s.tickets)
    requires s1.pending == s.pending && s1.nextLease !in s1.active
    ensures var s' := Admit(s1, principal).0; Settled(s') && Keeps(s, s')
  {
    var s' := Admit(s1, principal).0;
    assert s'.active.Keys == s1.active.Keys + {s1.nextLease};
  }

  /** Claiming swaps an offer for a lease: occupancy does not move. */
  lemma ClaimOk(s: State, id: nat, now: nat)
    requires AdmissionOk(s)
    ensures var (s', r) := Claim(s, id, now);
            && AdmissionOk(s') && Keeps(s, s') && s'.Occupied() == Expire(s, now).Occupied()
            && (r.Ok? ==> Claimed(Expire(s, now), id, s', r.value))
            && (r.Err? ==> s' == Expire(s, now)) && Expire(s, now).active == s.active
  {
    ExpireOk(s, now);
    ClaimNowOk(Expire(s, now), id, now);
    KeepsTransitive(s, Expire(s, now), Claim(s, id, now).0);
  }

  // ------------------------------------------------------------------ leases

  lemma DropSizes(s: State, id: nat, reserved: map<nat, Reservation>)
    requires id in s.active
    requires reserved.Keys <= s.reservations.Keys + {id}
    ensures |s.active - {id}| == |s.active| - 1 && |reserved| <= |s.reservations| + 1
  {
    assert (s.active - {id}).Keys == s.active.Keys - {id};
    Cache.SubsetSize(reserved.Keys, s.reservations.Keys + {id});
  }

  lemma DropLeaseOk(s: State, lease: Lease, reserved: map<nat, Reservation>)
    requires Base(s) && s.Holds(lease)
    requires reserved.Keys <= s.reservations.Keys + {lease.id}
    ensures var s' := s.(active := s.active - {lease.id}, reservations := reserved); Base(s') && Keeps(s, s')
  {
    DropSizes(s, lease.id, reserved);
  }

  lemma ReleaseOk(s: State, lease: Lease, reason: ReleaseReason, now: nat)
    requires Base(s) && Retained(s) && (!s.Holds(lease) ==> Settled(s))
    ensures var s' := Release(s, lease, reason, now);
            AdmissionOk(s') && Keeps(s, s') && s'.active == if s.Holds(lease) then s.active - {lease.id} else s.active
  {
    if s.Holds(lease) {
      var reserved := if reason.Unexpected? && s.policy.reconnectGrace > 0
                      then s.reservations[lease.id := Reservation(lease.principal, now + s.policy.reconnectGrace)]
                      else s.reservations;
      var s1 := s.(active := s.active - {lease.id}, reservations := reserved);
      DropLeaseOk(s, lease, reserved);
      SettleOk(s1, now);
      KeepsTransitive(s, s1, Release(s, lease, reason, now));
    }
  }

  lemma ForgetTicketOk(s: State, ticket: nat)
    requires Base(s) && Retained(s) && ticket in s.tickets && s.tickets[ticket].terminalAt.Some?
    ensures var s' := s.(tickets := s.tickets - {ticket}); Base(s') && Retained(s') && Keeps(s, s')
  {
    var s' := s.(tickets := s.tickets - {ticket});
    ThinOk(s, s');
    Cache.SubsetSize(TerminalIds(s'.tickets), TerminalIds(s.tickets));
  }

  /** A rollback of the lease just claimed with this ticket always releases it. */
  lemma RollbackOk(s: State, ticket: nat, lease: Lease, now: nat)
    requires AdmissionOk(s)
    ensures var s' := Rollback(s, ticket, lease, now);
            && AdmissionOk(s') && Keeps(s, s')
            && (s.Holds(lease) && (ticket in s.tickets ==> s.tickets[ticket].principal == lease.principal
                                                           && s.tickets[ticket].state == Admitted(lease.id))
                ==> s'.active == s.active - {lease.id})
            && (s'.active == s.active || s'.active == s.active - {lease.id})
  {
    if s.Holds(lease) {
      if ticket in s.tickets {
        if s.tickets[ticket].principal == lease.principal && s.tickets[ticket].state == Admitted(lease.id) {
          var s1 := s.(tickets := s.tickets - {ticket});
          ForgetTicketOk(s, ticket);
          ReleaseOk(s1, lease, Intentional, now);
          KeepsTransitive(s, s1, Rollback(s, ticket, lease, now));
        }
      } else {
        ReleaseOk(s, lease, Intentional, now);
      }
    }
  }

  lemma ResumeSizes(s: State, token: nat, principal: nat)
    requires token in s.reservations && token !in s.active
    ensures |s.reservations - {token}| == |s.reservations| - 1 && |s.active[token := principal]| == |s.active| + 1
  {
    assert s.active[token := principal].Keys == s.active.Keys + {token};
    assert (s.reservations - {token}).Keys == s.reservations.Keys - {token};
  }

  lemma TakeBackOk(s: State, token: nat, principal: nat)
    requires AdmissionOk(s) && token in s.reservations
    ensures var s' := s.(reservations := s.reservations - {token}, active := s.active[token := principal]);
            AdmissionOk(s') && Keeps(s, s') && s'.Occupied() == s.Occupied()
  {
    ResumeSizes(s, token, principal);
  }

  /** Resuming swaps a reservation for a lease: occupancy does not move. */
  lemma ResumeOk(s: State, token: nat, principal: nat, now: nat)
    requires AdmissionOk(s)
    ensures var (s', r) := Resume(s, token, principal, now);
            && AdmissionOk(s') && Keeps(s, s') && s'.Occupied() == Expire(s, now).Occupied()
            && (r.Some? ==> s'.Holds(r.value) && token !in s.active && s'.active == s.active[token := principal])
            && (r.None? ==> s'.active == s.active)
  {
    var s1 := Expire(s, now);
    ExpireOk(s, now);
    var (s', r) := Resume(s, token, principal, now);
    if r.Some? {
      TakeBackOk(s1, token, principal);
      KeepsTransitive(s, s1, s');
    }
  }

  // ------------------------------------------------------------------ capacity

  /** The newest accepted update is the limit in force, at once or once occupancy allows. */
  lemma ApplyCapacityOk(s: State, capacity: nat, revision: nat, now: nat)
    requires AdmissionOk(s) && capacity <= U32_MAX
    ensures var s' := ApplyCapacity(s, capacity, revision, now);
            && AdmissionOk(s') && Evolves(s, s') && s'.active == s.active && s'.reservations == s.reservations
            && (revision > s.revision ==> s'.Limit() == capacity && s'.revision == revision)
            && (revision <= s.revision ==> s' == s)
  {
    if revision > s.revision && capacity >= s.Occupied() {
      var s1 := s.(revision := revision, capacity := capacity, pending := None);
      assert Base(s1) && Evolves(s, s1);
      PromoteOk(s1, now);
      EvolvesTransitive(s, s1, ApplyCapacity(s, capacity, revision, now));
    }
  }

  lemma NewStateOk(session: SessionKey, policy: QueuePolicy, capacity: nat, revision: nat)
    requires capacity <= U32_MAX
    ensures AdmissionOk(NewState(session, policy, capacity, revision))
  {
    var s := NewState(session, policy, capacity, revision);
    assert OfferedIds(s.tickets) == {} && LiveIds(s.tickets) == {} && TerminalIds(s.tickets) == {};
  }

  // ------------------------------------------------------------------ positions over whole runs

  /** Where a waiting ticket stands: itself and everyone before it. */
  ghost function QueuePosition(s: State, id: nat): nat { |Ahead(s, id)| }

  ghost function Ahead(s: State, id: nat): set<nat> { set x | x in WaitingIds(s.tickets) && x <= id }

  lemma PositionAtLeastOne(s: State, id: nat)
    requires id in WaitingIds(s.tickets)
    ensures QueuePosition(s, id) >= 1
  {
    Cache.SubsetSize({id}, Ahead(s, id));
  }

  lemma PositionNeverIncreases(s: State, s': State, id: nat)
    requires Evolves(s, s') && id < s.nextTicket
    ensures QueuePosition(s', id) <= QueuePosition(s, id)
  {
    Cache.SubsetSize(Ahead(s', id), Ahead(s, id));
  }

  lemma {:induction false} EvolvesRun(run: seq<State>, i: nat, j: nat)
    requires i <= j < |run| && forall n | 0 <= n < |run| - 1 :: Evolves(run[n], run[n + 1])
    ensures Evolves(run[i], run[j])
    decreases j - i
  {
    if i < j {
      EvolvesRun(run, i, j - 1);
      assert Evolves(run[j - 1], run[j - 1 + 1]);
      EvolvesTransitive(run[i], run[j - 1], run[j]);
    }
  }

  /** Over any run of operations a waiting ticket only ever moves forward. */
  lemma QueueOnlyAdvances(run: seq<State>, i: nat, j: nat, id: nat)
    requires i <= j < |run| && forall n | 0 <= n < |run| - 1 :: Evolves(run[n], run[n + 1])
    requires IdsOk(run[i]) && id in WaitingIds(run[i].tickets) && id in WaitingIds(run[j].tickets)
    ensures 1 <= QueuePosition(run[j], id) <= QueuePosition(run[i], id)
  {
    EvolvesRun(run, i, j);
    PositionNeverIncreases(run[i], run[j], id);
    PositionAtLeastOne(run[j], id);
  }
}
