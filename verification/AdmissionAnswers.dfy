/** When each admission request is granted, queued or refused, and what exactly it does to tickets, leases and
    reservations. */
module AdmissionAnswers {
  import opened Model
  import opened Admission
  import opened AdmissionInvariants

  // ------------------------------------------------------------------ expiry and promotion

  /** A live ticket whose time is over. */
  predicate Overdue(p: QueuePolicy, e: Entry, now: nat) {
    || (e.state.Waiting? && (p.ticketTtl == 0 || e.created + p.ticketTtl <= now
                             || p.heartbeatTimeout == 0 || e.heartbeat + p.heartbeatTimeout <= now))
    || (e.state.Offered? && e.state.expires <= now)
  }

  /** A waiting ticket may be offered a slot for the time the policy allows; nothing else about it changes. */
  predicate MayBeOffered(p: QueuePolicy, e: Entry, e': Entry, now: nat) {
    e' == e || (e.state.Waiting? && e' == e.(state := Offered(now + p.offerTtl)))
  }

  predicate AfterExpiry(p: QueuePolicy, e: Entry, e': Entry, now: nat) {
    if e.terminalAt.Some? then e' == e
    else if Overdue(p, e, now) then e' == e.(state := Expired, terminalAt := Some(now))
    else MayBeOffered(p, e, e', now)
  }

  lemma {:induction false} PromoteEach(s: State, now: nat)
    ensures var s' := Promote(s, now);
            && s'.tickets.Keys == s.tickets.Keys && s' == s.(tickets := s'.tickets)
            && forall id | id in s.tickets :: MayBeOffered(s.policy, s.tickets[id], s'.tickets[id], now)
    decreases |WaitingIds(s.tickets)|
  {
    if s.Occupied() < s.Limit() && WaitingIds(s.tickets) != {} {
      var id := Min(WaitingIds(s.tickets));
      OfferShrinks(s.tickets, s.policy, id, now);
      PromoteEach(s.(tickets := Offer(s.tickets, s.policy, id, now)), now);
    }
  }

  lemma SettleEach(s: State, now: nat)
    ensures var s' := Settle(s, now);
            && s'.tickets.Keys == s.tickets.Keys && s'.active == s.active && s'.reservations == s.reservations
            && forall id | id in s.tickets :: MayBeOffered(s.policy, s.tickets[id], s'.tickets[id], now)
  {
    PromoteEach(ApplyPending(s), now);
  }

  /** What pruning drops: tickets finished a minute ago or longer, and of the others only as many of the oldest as
      exceed the bound. */
  lemma PruneExactly(t: Tickets, now: nat)
    ensures var t' := Prune(t, now);
            && KeepsLive(t, t')
            && (forall id | id in t && id !in t' ::
                  && t[id].terminalAt.Some?
                  && (t[id].terminalAt.value + RETENTION <= now
                      || (|TerminalIds(t')| == MAX_TERMINAL && forall y | y in TerminalIds(t') :: Before(t, id, y))))
            && (forall id | id in t' && t'[id].terminalAt.Some? :: now < t'[id].terminalAt.value + RETENTION)
  {
    var r := Recent(t, now);
    DropKeepsNewest(r);
    forall id | id in r && id !in Prune(t, now) ensures id in TerminalIds(r) {}
  }

  lemma ExpiredExactly(p: QueuePolicy, t: Tickets, now: nat, id: nat)
    requires EntriesOk(t) && id in t
    ensures var e' := ExpireTickets(p, t, now)[id];
            if t[id].terminalAt.Some? then e' == t[id]
            else if Overdue(p, t[id], now) then e' == t[id].(state := Expired, terminalAt := Some(now))
            else e' == t[id]
  {
  }

  /** Exactly the overdue tickets expire, exactly the overdue reservations go, and of the others only waiting tickets
      change, by being offered a slot. */
  lemma ExpireExactly(s: State, now: nat)
    requires AdmissionOk(s)
    ensures var s' := Expire(s, now);
            && (forall id | id in s'.tickets ::
                  id in s.tickets && AfterExpiry(s.policy, s.tickets[id], s'.tickets[id], now))
            && (forall id | id in s.tickets && s.tickets[id].terminalAt.None?
                && !Overdue(s.policy, s.tickets[id], now) ::
                  id in s'.tickets)
            && (forall id :: id in s'.reservations <==> id in s.reservations && now < s.reservations[id].expires)
            && (forall id | id in s'.reservations :: s'.reservations[id] == s.reservations[id])
  {
    var expired := ExpireTickets(s.policy, s.tickets, now);
    var s1 := s.(reservations := Unexpired(s.reservations, now), tickets := Prune(expired, now));
    PruneKeepsLive(expired, now);
    SettleEach(s1, now);
    forall id | id in s.tickets
      ensures id in expired
      ensures s.tickets[id].terminalAt.None? && !Overdue(s.policy, s.tickets[id], now)
              ==> expired[id] == s.tickets[id]
    {
      ExpiredExactly(s.policy, s.tickets, now, id);
    }
    forall id | id in Expire(s, now).tickets
      ensures AfterExpiry(s.policy, s.tickets[id], Expire(s, now).tickets[id], now) {
      ExpiredExactly(s.policy, s.tickets, now, id);
    }
  }

  // ------------------------------------------------------------------ joining

  /** The principal waits or was offered a slot. */
  ghost predicate IsQueued(s: State, principal: nat) { exists id :: LiveTicketOf(s.tickets, principal, id) }

  /** The same under this key. */
  ghost predicate IsQueuedWith(s: State, principal: nat, key: Key) {
    exists id :: LiveTicketOf(s.tickets, principal, id) && s.tickets[id].key == key
  }

  /** The request is well formed and the session open. */
  ghost predicate MayAsk(s: State, key: Option<Key>) { key.Some? && s.nextLease != U64_MAX && s.Limit() > 0 }

  ghost predicate QueueHasRoom(s: State) {
    s.policy.enabled && |LiveIds(s.tickets)| < s.policy.maxDepth && s.nextTicket != U64_MAX
  }

  /** Every answer, by the state after expiry. */
  lemma JoinAnswers(s: State, principal: nat, key: Option<Key>, now: nat)
    ensures var d := JoinNow(s, principal, key, now).1;
            && (d.AdmittedNow? <==> MayAsk(s, key) && !IsQueued(s, principal) && s.Occupied() < s.Limit())
            && (d.Queued? <==> MayAsk(s, key) && (IsQueuedWith(s, principal, key.value)
                                                  || (!IsQueued(s, principal)
                                                      && s.Occupied() >= s.Limit() && QueueHasRoom(s))))
            && (d.Paused? <==> key.Some? && s.nextLease != U64_MAX && s.Limit() == 0)
            && (d == Rejected(InvalidIdempotencyKey) <==> key.None?)
            && (d == Rejected(AlreadyQueued) <==>
                  MayAsk(s, key) && IsQueued(s, principal) && !IsQueuedWith(s, principal, key.value))
            && (d == Rejected(QueueDisabled) <==>
                  MayAsk(s, key) && !IsQueued(s, principal) && s.Occupied() >= s.Limit() && !s.policy.enabled)
  {
    if MayAsk(s, key) { JoinCases(s, principal, key, now); }
  }

  lemma JoinCases(s: State, principal: nat, key: Option<Key>, now: nat)
    requires MayAsk(s, key)
    ensures var d := JoinNow(s, principal, key, now).1;
            && (IsQueuedWith(s, principal, key.value) ==> d.Queued?)
            && (IsQueued(s, principal) && !IsQueuedWith(s, principal, key.value) ==> d == Rejected(AlreadyQueued))
            && (!IsQueued(s, principal) ==>
                  if s.Occupied() < s.Limit() then d.AdmittedNow?
                  else if !s.policy.enabled then d == Rejected(QueueDisabled)
                  else if QueueHasRoom(s) then d == Queued(s.nextTicket) else d == Rejected(QueueFull))
  {
  }

  /** An admission is a new lease, a new ticket waits behind all others, and any other answer changes nothing. */
  lemma JoinEffects(s: State, principal: nat, key: Option<Key>, now: nat)
    requires AdmissionOk(s)
    ensures var (s', d) := JoinNow(s, principal, key, now);
            && (d.AdmittedNow? ==>
                  && d.lease == Lease(s.nextLease, s.session, principal) && d.lease.id !in s.active
                  && s' == s.(nextLease := s.nextLease + 1, active := s.active[d.lease.id := principal]))
            && (d.Queued? && IsQueued(s, principal) ==>
                  s' == s && LiveTicketOf(s.tickets, principal, d.ticket) && key == Some(s.tickets[d.ticket].key))
            && (d.Queued? && !IsQueued(s, principal) ==>
                  && d.ticket !in s.tickets && key.Some? && (forall id | id in s.tickets :: id < d.ticket)
                  && s' == s.(nextTicket := s.nextTicket + 1,
                              tickets := s.tickets[d.ticket := Entry(principal, key.value, now, now, Waiting, None)]))
            && (!d.AdmittedNow? && !d.Queued? ==> s' == s)
  {
  }

  /** A queued principal has exactly one live ticket, and it is the one answered. */
  lemma JoinedOnce(s: State, principal: nat, key: Option<Key>, now: nat, id: nat)
    requires AdmissionOk(s)
    ensures var (s', d) := JoinNow(s, principal, key, now);
            d.Queued? ==> (LiveTicketOf(s'.tickets, principal, id) <==> id == d.ticket)
  {
    JoinNowOk(s, principal, key, now);
    JoinEffects(s, principal, key, now);
  }

  // ------------------------------------------------------------------ claiming

  /** A claim succeeds exactly on an offered ticket; otherwise its answer names the ticket's state, and nothing
      changes. */
  lemma ClaimAnswers(s: State, id: nat, now: nat)
    ensures var (s', r) := ClaimNow(s, id, now);
            && (r.Ok? <==> id in s.tickets && s.tickets[id].state.Offered?)
            && (r == Err(ClaimMissing) <==> id !in s.tickets)
            && (r == Err(NotOffered) <==> id in s.tickets && s.tickets[id].state.Waiting?)
            && (r == Err(ClaimExpired) <==> id in s.tickets && s.tickets[id].state.Expired?)
            && (r == Err(ClaimCancelled) <==> id in s.tickets && s.tickets[id].state.Cancelled?)
            && (r == Err(ClaimAdmitted) <==> id in s.tickets && s.tickets[id].state.Admitted?)
            && (r.Err? ==> s' == s)
  {
  }

  /** One ticket finished now, the others as they were but for pruning. */
  ghost predicate Finishes(s: State, id: nat, state: TicketState, now: nat, t': Tickets) {
    && id in s.tickets
    && (forall k | k in t' :: k in s.tickets
                              && t'[k] == if k == id
                                 then s.tickets[id].(state := state, terminalAt := Some(now)) else s.tickets[k])
    && (forall k | k in s.tickets && k != id && s.tickets[k].terminalAt.None? :: k in t')
  }

  lemma FinishFinishes(s: State, id: nat, state: TicketState, now: nat)
    requires id in s.tickets
    ensures Finishes(s, id, state, now, FinishTicket(s, id, state, now).tickets)
    ensures FinishTicket(s, id, state, now) == s.(tickets := FinishTicket(s, id, state, now).tickets)
  {
    PruneKeepsLive(Finish(s.tickets, id, state, now), now);
  }

  /** A successful claim is a new lease of the ticket's principal, and the ticket is finished by it. */
  lemma ClaimEffects(s: State, id: nat, now: nat)
    requires AdmissionOk(s) && id in s.tickets && s.tickets[id].state.Offered?
    ensures var (s', r) := ClaimNow(s, id, now);
            && r == Ok(Lease(s.nextLease, s.session, s.tickets[id].principal)) && s.nextLease !in s.active
            && s' == s.(nextLease := s.nextLease + 1,
                        active := s.active[s.nextLease := s.tickets[id].principal], tickets := s'.tickets)
            && Finishes(s, id, Admitted(s.nextLease), now, s'.tickets)
  {
    FinishFinishes(s, id, Admitted(s.nextLease), now);
  }

  // ------------------------------------------------------------------ heartbeat and cancellation

  /** A heartbeat counts exactly for a waiting ticket, from now on. */
  lemma BeatExactly(s: State, id: nat, now: nat)
    ensures Beat(s, id, now)
         == if id in s.tickets && s.tickets[id].state.Waiting?
            then s.(tickets := s.tickets[id := s.tickets[id].(heartbeat := now)]) else s
  {
  }

  /** Exactly a live ticket is withdrawn; its slot, if it was offered one, goes to those that wait. */
  lemma CancelAnswers(s: State, id: nat, now: nat)
    requires AdmissionOk(s)
    ensures var (s', r) := CancelNow(s, id, now);
            && (r == Withdrawn <==> id in s.tickets && s.tickets[id].state.Live())
            && (r == NoTicket <==> id !in s.tickets)
            && (r == AlreadyAdmitted <==> id in s.tickets && s.tickets[id].state.Admitted?)
            && (r != Withdrawn ==> s' == s)
            && (r == Withdrawn && id in s'.tickets ==>
                  s'.tickets[id] == s.tickets[id].(state := Cancelled, terminalAt := Some(now)))
            && (r == Withdrawn ==> forall k | k in s.tickets && k != id && s.tickets[k].terminalAt.None? ::
                  k in s'.tickets && MayBeOffered(s.policy, s.tickets[k], s'.tickets[k], now))
  {
    if id in s.tickets && s.tickets[id].state.Live() {
      FinishFinishes(s, id, Cancelled, now);
      PromoteEach(ApplyPending(FinishTicket(s, id, Cancelled, now)), now);
    }
  }

  // ------------------------------------------------------------------ leases

  /** A lease is given back exactly if it is active in this name at this session; lost unexpectedly, its place is
      reserved for the grace the policy grants, and the slot is settled at once. */
  lemma ReleaseEffects(s: State, lease: Lease, reason: ReleaseReason, now: nat)
    ensures var s' := Release(s, lease, reason, now);
            if lease.session == s.session && lease.id in s.active && s.active[lease.id] == lease.principal then
              && s'.active == s.active - {lease.id}
              && s'.reservations == (if reason.Unexpected? && s.policy.reconnectGrace > 0
                                     then s.reservations[lease.id :=
                                            Reservation(lease.principal, now + s.policy.reconnectGrace)]
                                     else s.reservations)
              && s'.tickets.Keys == s.tickets.Keys
              && forall k | k in s.tickets :: MayBeOffered(s.policy, s.tickets[k], s'.tickets[k], now)
            else s' == s
  {
    SettleEach(Given(s, lease, reason, now), now);
  }

  /** The lease taken out, and its place reserved if there is a grace. */
  function Given(s: State, lease: Lease, reason: ReleaseReason, now: nat): State {
    s.(active := s.active - {lease.id},
       reservations := if reason.Unexpected? && s.policy.reconnectGrace > 0
                       then s.reservations[lease.id := Reservation(lease.principal, now + s.policy.reconnectGrace)]
                       else s.reservations)
  }

  /** A place is resumed exactly while it is reserved for this principal, and it is the same lease again. */
  lemma ResumeAnswers(s: State, token: nat, principal: nat)
    ensures var (s', r) := ResumeNow(s, token, principal);
            && (r.Some? <==> token in s.reservations && s.reservations[token].principal == principal)
            && (r.Some? ==>
                  && r.value == Lease(token, s.session, principal)
                  && s' == s.(reservations := s.reservations - {token}, active := s.active[token := principal]))
            && (r.None? ==> s' == s)
  {
  }

  /** A newer capacity below occupancy waits for it to fall, any other is in force at once, an older one is ignored. */
  lemma CapacityEffects(s: State, capacity: nat, revision: nat, now: nat)
    ensures var s' := ApplyCapacity(s, capacity, revision, now);
            && (revision <= s.revision ==> s' == s)
            && (revision > s.revision && capacity < s.Occupied() ==>
                  s' == s.(revision := revision, pending := Some(capacity)))
            && (revision > s.revision && capacity >= s.Occupied() ==>
                  && s' == s.(revision := revision, capacity := capacity, pending := None, tickets := s'.tickets)
                  && s'.tickets.Keys == s.tickets.Keys
                  && forall k | k in s.tickets :: MayBeOffered(s.policy, s.tickets[k], s'.tickets[k], now))
  {
    if revision > s.revision && capacity >= s.Occupied() {
      PromoteEach(s.(revision := revision, capacity := capacity, pending := None), now);
    }
  }
}
