/** The admission state of one session: capacity, active leases, reconnect reservations and queue
    tickets. Which tickets wait and which are live is read off the ticket table alone. */
module Admission {
  import opened Model

  type Key = string

  const U32_MAX: nat := 0xFFFF_FFFF
  const U64_MAX: nat := 0xFFFF_FFFF_FFFF_FFFF
  const RETENTION: nat := 60_000_000_000
  const MAX_TERMINAL: nat := 1024
  const MAX_KEY_LENGTH: nat := 256

  datatype QueuePolicy = QueuePolicy(
    enabled: bool, maxDepth: nat, ticketTtl: nat, offerTtl: nat, heartbeatTimeout: nat, reconnectGrace: nat)

  datatype TicketState = Waiting | Offered(expires: nat) | Expired | Cancelled | Admitted(lease: nat)
  {
    predicate Live() { Waiting? || Offered? }
  }

  datatype Entry = Entry(principal: nat, key: Key, created: nat, heartbeat: nat, state: TicketState,
                         terminalAt: Option<nat>)

  datatype Reservation = Reservation(principal: nat, expires: nat)

  datatype Lease = Lease(id: nat, session: SessionKey, principal: nat)

  datatype RejectionReason = QueueFull | QueueDisabled | AlreadyQueued | InvalidIdempotencyKey

  datatype Decision = AdmittedNow(lease: Lease) | Queued(ticket: nat) | Paused | Rejected(reason: RejectionReason)

  datatype CancelResult = Withdrawn | NoTicket | AlreadyAdmitted | AlreadyExpired

  datatype ClaimError = NotOffered | ClaimMissing | ClaimExpired | ClaimCancelled | ClaimAdmitted

  datatype ReleaseReason = Intentional | Unexpected

  type Tickets = map<nat, Entry>

  datatype State = State(
    session: SessionKey,
    policy: QueuePolicy,
    capacity: nat,
    pending: Option<nat>,
    revision: nat,
    nextTicket: nat,
    nextLease: nat,
    active: map<nat, nat>,
    reservations: map<nat, Reservation>,
    tickets: Tickets)
  {
    /** The limit new admissions are held to. */
    function Limit(): nat { if pending.Some? then pending.value else capacity }

    function Occupied(): nat { |active| + |reservations| + |OfferedIds(tickets)| }

    predicate Holds(lease: Lease) {
      lease.session == session && lease.id in active && active[lease.id] == lease.principal
    }
  }

  function WaitingIds(t: Tickets): set<nat> { set id | id in t && t[id].state.Waiting? }
  function OfferedIds(t: Tickets): set<nat> { set id | id in t && t[id].state.Offered? }
  function LiveIds(t: Tickets): set<nat> { set id | id in t && t[id].terminalAt.None? }
  function TerminalIds(t: Tickets): set<nat> { set id | id in t && t[id].terminalAt.Some? }

  function Minus(a: nat, b: nat): nat { if a <= b then 0 else a - b }

  // ------------------------------------------------------------------ the smallest element

  ghost predicate Least(ids: set<nat>, x: nat) { x in ids && forall y | y in ids :: x <= y }

  lemma {:induction false} HasLeast(ids: set<nat>)
    requires ids != {}
    ensures exists x :: Least(ids, x)
  {
    var x :| x in ids;
    if ids == {x} {
      assert Least(ids, x);
    } else {
      HasLeast(ids - {x});
      var y :| Least(ids - {x}, y);
      assert forall z | z in ids :: z == x || z in ids - {x};
      assert Least(ids, if y < x then y else x);
    }
  }

  ghost function Min(ids: set<nat>): (x: nat)
    requires ids != {}
    ensures Least(ids, x)
  {
    HasLeast(ids);
    var x :| Least(ids, x);
    x
  }

  // ------------------------------------------------------------------ retention of finished tickets

  /** Ordered by the time a ticket finished, then by id. */
  predicate Before(t: Tickets, a: nat, b: nat)
    requires a in t && b in t && t[a].terminalAt.Some? && t[b].terminalAt.Some?
  {
    t[a].terminalAt.value < t[b].terminalAt.value || (t[a].terminalAt.value == t[b].terminalAt.value && a <= b)
  }

  ghost predicate OldestAmong(t: Tickets, ids: set<nat>, x: nat)
    requires ids <= TerminalIds(t)
  {
    x in ids && forall y | y in ids :: Before(t, x, y)
  }

  lemma {:induction false} HasOldest(t: Tickets, ids: set<nat>)
    requires ids != {} && ids <= TerminalIds(t)
    ensures exists x :: OldestAmong(t, ids, x)
  {
    var x :| x in ids;
    if ids == {x} {
      assert OldestAmong(t, ids, x);
    } else {
      HasOldest(t, ids - {x});
      var y :| OldestAmong(t, ids - {x}, y);
      assert forall z | z in ids :: z == x || z in ids - {x};
      assert OldestAmong(t, ids, if Before(t, x, y) then x else y);
    }
  }

  ghost function Oldest(t: Tickets): (x: nat)
    requires TerminalIds(t) != {}
    ensures OldestAmong(t, TerminalIds(t), x)
  {
    HasOldest(t, TerminalIds(t));
    var x :| OldestAmong(t, TerminalIds(t), x);
    x
  }

  /** Drops the oldest finished ticket while there are too many. */
  ghost function DropExcess(t: Tickets): (t': Tickets)
    decreases |t|
  {
    if |TerminalIds(t)| <= MAX_TERMINAL then t
    else
      RemoveShrinks(t, Oldest(t));
      DropExcess(t - {Oldest(t)})
  }

  lemma RemoveShrinks(t: Tickets, x: nat)
    requires x in t
    ensures |t - {x}| < |t| && TerminalIds(t - {x}) == TerminalIds(t) - {x}
  {
    assert (t - {x}).Keys == t.Keys - {x};
  }

  function Recent(t: Tickets, now: nat): Tickets {
    map id | id in t && (t[id].terminalAt.Some? ==> Minus(now, t[id].terminalAt.value) < RETENTION) :: t[id]
  }

  ghost function Prune(t: Tickets, now: nat): Tickets { DropExcess(Recent(t, now)) }

  /** Only finished tickets are dropped. */
  ghost predicate KeepsLive(t: Tickets, t': Tickets) {
    && (forall id | id in t' :: id in t && t'[id] == t[id])
    && (forall id | id in t && t[id].terminalAt.None? :: id in t')
  }

  /** What pruning leaves: all live tickets, and of the finished ones the newest, as many as may stay. */
  ghost predicate KeepsNewest(t: Tickets, t': Tickets) {
    && KeepsLive(t, t')
    && |TerminalIds(t')| == (if |TerminalIds(t)| <= MAX_TERMINAL then |TerminalIds(t)| else MAX_TERMINAL)
    && (forall x, y | x in TerminalIds(t) && x !in t' && y in TerminalIds(t') :: y in TerminalIds(t) && Before(t, x, y))
  }

  lemma {:induction false} DropKeepsNewest(t: Tickets)
    ensures KeepsNewest(t, DropExcess(t))
    decreases |t|
  {
    if |TerminalIds(t)| > MAX_TERMINAL {
      var x := Oldest(t);
      RemoveShrinks(t, x);
      DropKeepsNewest(t - {x});
    }
  }

  lemma PruneKeepsLive(t: Tickets, now: nat)
    ensures KeepsLive(t, Prune(t, now)) && |TerminalIds(Prune(t, now))| <= MAX_TERMINAL
  {
    DropKeepsNewest(Recent(t, now));
  }

  // ------------------------------------------------------------------ operations

  function ExpiredEntry(p: QueuePolicy, e: Entry, now: nat): Entry {
    if e.state.Waiting? && (Minus(now, e.created) >= p.ticketTtl || Minus(now, e.heartbeat) >= p.heartbeatTimeout)
    then e.(state := Expired, terminalAt := Some(now))
    else if e.state.Offered? && e.state.expires <= now then e.(state := Expired, terminalAt := Some(now))
    else e
  }

  ghost function ExpireTickets(p: QueuePolicy, t: Tickets, now: nat): Tickets {
    map id | id in t :: ExpiredEntry(p, t[id], now)
  }

  function Unexpired(r: map<nat, Reservation>, now: nat): map<nat, Reservation> {
    map id | id in r && r[id].expires > now :: r[id]
  }

  /** A deferred decrease takes effect once occupancy fits. */
  function ApplyPending(s: State): State {
    if s.pending.Some? && s.Occupied() <= s.pending.value then s.(capacity := s.pending.value, pending := None) else s
  }

  function Offer(t: Tickets, p: QueuePolicy, id: nat, now: nat): Tickets
    requires id in t
  {
    t[id := t[id].(state := Offered(now + p.offerTtl))]
  }

  /** Free slots go to the longest waiting tickets. */
  ghost function Promote(s: State, now: nat): State
    decreases |WaitingIds(s.tickets)|
  {
    if s.Occupied() < s.Limit() && WaitingIds(s.tickets) != {} then
      OfferShrinks(s.tickets, s.policy, Min(WaitingIds(s.tickets)), now);
      Promote(s.(tickets := Offer(s.tickets, s.policy, Min(WaitingIds(s.tickets)), now)), now)
    else s
  }

  lemma OfferShrinks(t: Tickets, p: QueuePolicy, id: nat, now: nat)
    requires id in WaitingIds(t)
    ensures var t' := Offer(t, p, id, now);
            && WaitingIds(t') == WaitingIds(t) - {id} && |WaitingIds(t')| < |WaitingIds(t)|
            && OfferedIds(t') == OfferedIds(t) + {id} && |OfferedIds(t')| == |OfferedIds(t)| + 1
  {
    assert WaitingIds(Offer(t, p, id, now)) == WaitingIds(t) - {id};
    assert OfferedIds(Offer(t, p, id, now)) == OfferedIds(t) + {id};
  }

  ghost function Settle(s: State, now: nat): State { Promote(ApplyPending(s), now) }

  ghost function Expire(s: State, now: nat): State {
    Settle(s.(reservations := Unexpired(s.reservations, now),
              tickets := Prune(ExpireTickets(s.policy, s.tickets, now), now)), now)
  }

  function Admit(s: State, principal: nat): (State, Lease) {
    (s.(nextLease := s.nextLease + 1, active := s.active[s.nextLease := principal]),
     Lease(s.nextLease, s.session, principal))
  }

  function Enqueue(s: State, principal: nat, key: Key, now: nat): State {
    s.(nextTicket := s.nextTicket + 1,
       tickets := s.tickets[s.nextTicket := Entry(principal, key, now, now, Waiting, None)])
  }

  /** The live ticket of a principal, if any. */
  ghost predicate LiveTicketOf(t: Tickets, principal: nat, id: nat) {
    id in t && t[id].state.Live() && t[id].principal == principal
  }

  ghost function RequestJoin(s: State, principal: nat, key: Option<Key>, now: nat): (State, Decision) {
    JoinNow(Expire(s, now), principal, key, now)
  }

  ghost function JoinNow(s: State, principal: nat, key: Option<Key>, now: nat): (State, Decision) {
    if key.None? then (s, Rejected(InvalidIdempotencyKey))
    else if s.nextLease == U64_MAX then (s, Rejected(QueueFull))
    else if s.Limit() == 0 then (s, Paused)
    else if exists id :: LiveTicketOf(s.tickets, principal, id) && s.tickets[id].key == key.value then
      var id :| LiveTicketOf(s.tickets, principal, id) && s.tickets[id].key == key.value;
      (s, Queued(id))
    else if exists id :: LiveTicketOf(s.tickets, principal, id) then (s, Rejected(AlreadyQueued))
    else if s.Occupied() < s.Limit() then
      var (s', lease) := Admit(s, principal);
      (s', AdmittedNow(lease))
    else if !s.policy.enabled then (s, Rejected(QueueDisabled))
    else if |LiveIds(s.tickets)| >= s.policy.maxDepth || s.nextTicket == U64_MAX then (s, Rejected(QueueFull))
    else (Enqueue(s, principal, key.value, now), Queued(s.nextTicket))
  }

  ghost function Heartbeat(s: State, id: nat, now: nat): State { Beat(Expire(s, now), id, now) }

  function Beat(s: State, id: nat, now: nat): State {
    if id in s.tickets && s.tickets[id].state.Waiting?
    then s.(tickets := s.tickets[id := s.tickets[id].(heartbeat := now)])
    else s
  }

  function Finish(t: Tickets, id: nat, state: TicketState, now: nat): Tickets
    requires id in t
  {
    t[id := t[id].(state := state, terminalAt := Some(now))]
  }

  ghost function Cancel(s: State, id: nat, now: nat): (State, CancelResult) { CancelNow(Expire(s, now), id, now) }

  ghost function FinishTicket(s: State, id: nat, state: TicketState, now: nat): State
    requires id in s.tickets
  {
    s.(tickets := Prune(Finish(s.tickets, id, state, now), now))
  }

  ghost function CancelNow(s: State, id: nat, now: nat): (State, CancelResult) {
    if id !in s.tickets then (s, NoTicket)
    else
      match s.tickets[id].state
      case Admitted(_) => (s, AlreadyAdmitted)
      case Expired => (s, AlreadyExpired)
      case Cancelled => (s, AlreadyExpired)
      case _ => (Settle(FinishTicket(s, id, Cancelled, now), now), Withdrawn)
  }

  ghost function Claim(s: State, id: nat, now: nat): (State, Result<Lease, ClaimError>)
  {
    ClaimNow(Expire(s, now), id, now)
  }

  ghost function ClaimNow(s: State, id: nat, now: nat): (State, Result<Lease, ClaimError>) {
    if id !in s.tickets then (s, Err(ClaimMissing))
    else
      match s.tickets[id].state
      case Waiting => (s, Err(NotOffered))
      case Expired => (s, Err(ClaimExpired))
      case Cancelled => (s, Err(ClaimCancelled))
      case Admitted(_) => (s, Err(ClaimAdmitted))
      case Offered(_) =>
        var (s', lease) := Admit(FinishTicket(s, id, Admitted(s.nextLease), now), s.tickets[id].principal);
        (s', Ok(lease))
  }

  ghost function Release(s: State, lease: Lease, reason: ReleaseReason, now: nat): State {
    if !s.Holds(lease) then s
    else
      var reserved := if reason.Unexpected? && s.policy.reconnectGrace > 0
                      then s.reservations[lease.id := Reservation(lease.principal, now + s.policy.reconnectGrace)]
                      else s.reservations;
      Settle(s.(active := s.active - {lease.id}, reservations := reserved), now)
  }

  /** Undoes a claim whose membership could not be bound. */
  ghost function Rollback(s: State, ticket: nat, lease: Lease, now: nat): State {
    if !s.Holds(lease) then s
    else if ticket in s.tickets then
      if s.tickets[ticket].principal != lease.principal || s.tickets[ticket].state != Admitted(lease.id) then s
      else Release(s.(tickets := s.tickets - {ticket}), lease, Intentional, now)
    else Release(s, lease, Intentional, now)
  }

  ghost function Resume(s: State, token: nat, principal: nat, now: nat): (State, Option<Lease>) {
    ResumeNow(Expire(s, now), token, principal)
  }

  function ResumeNow(s: State, token: nat, principal: nat): (State, Option<Lease>) {
    if token in s.reservations && s.reservations[token].principal == principal
    then (s.(reservations := s.reservations - {token}, active := s.active[token := principal]),
          Some(Lease(token, s.session, principal)))
    else (s, None)
  }

  ghost function ApplyCapacity(s: State, capacity: nat, revision: nat, now: nat): State {
    if revision <= s.revision then s
    else if capacity < s.Occupied() then s.(revision := revision, pending := Some(capacity))
    else Promote(s.(revision := revision, capacity := capacity, pending := None), now)
  }

  function NewState(session: SessionKey, policy: QueuePolicy, capacity: nat, revision: nat): State {
    State(session, policy, capacity, None, revision, 1, 1, map[], map[], map[])
  }
}
