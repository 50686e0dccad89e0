/** The admission controller: the ticket table with its waiting queue and idempotency index, all three
    updated in place and kept in agreement. */
module AdmissionControllers {
  import opened Model
  import opened Sequences
  import opened Admission
  import opened AdmissionInvariants

  type Index = map<(nat, Key), nat>

  // ------------------------------------------------------------------ agreement of the redundant tables

  ghost predicate Increasing(w: seq<nat>) { forall i, j | 0 <= i < j < |w| :: w[i] < w[j] }

  /** The queue is exactly the waiting tickets, oldest first. */
  ghost predicate QueueOf(w: seq<nat>, t: Tickets) {
    Increasing(w) && forall id :: id in w <==> id in WaitingIds(t)
  }

  /** The index is exactly the live tickets. */
  ghost predicate IndexOf(index: Index, t: Tickets) {
    && (forall k | k in index ::
        index[k] in t && t[index[k]].terminalAt.None? && k == (t[index[k]].principal, t[index[k]].key))
    && (forall id | id in t && t[id].terminalAt.None? ::
          (t[id].principal, t[id].key) in index && index[(t[id].principal, t[id].key)] == id)
  }

  function Count(n: nat): nat { if n > U32_MAX then U32_MAX else n }

  /** Occupancy as the code adds it up, each term clamped to 32 bits. */
  function OccupiedU32(s: State): nat { Count(|s.active|) + Count(|s.reservations|) + Count(|OfferedIds(s.tickets)|) }

  /** No term is ever clamped and the sum never leaves 32 bits. */
  lemma OccupancyExact(s: State)
    requires CapacityOk(s)
    ensures OccupiedU32(s) == s.Occupied() <= U32_MAX
  {
  }

  // ------------------------------------------------------------------ expiry

  lemma FinishIndex(index: Index, t: Tickets, id: nat, e: Entry)
    requires IndexOf(index, t) && id in t && t[id].terminalAt.None?
    requires e.terminalAt.Some? && e.principal == t[id].principal && e.key == t[id].key
    ensures IndexOf(index - {(e.principal, e.key)}, t[id := e])
  {
  }

  ghost function ExpireSome(p: QueuePolicy, t: Tickets, now: nat, rest: set<nat>): Tickets {
    map id | id in t :: if id in rest then t[id] else ExpiredEntry(p, t[id], now)
  }

  lemma ExpireOne(p: QueuePolicy, t: Tickets, now: nat, rest: set<nat>, id: nat)
    requires id in rest && id in t
    ensures ExpireSome(p, t, now, rest)[id] == t[id]
    ensures ExpireSome(p, t, now, rest - {id}) == ExpireSome(p, t, now, rest)[id := ExpiredEntry(p, t[id], now)]
  {
  }

  lemma SameEntry(t: Tickets, id: nat)
    requires id in t
    ensures t[id := t[id]] == t
  {
  }

  /** Visits every ticket once, in any order. */
  method ExpireEach(p: QueuePolicy, t: Tickets, index: Index, now: nat) returns (t': Tickets, index': Index)
    requires EntriesOk(t) && IndexOf(index, t)
    ensures t' == ExpireTickets(p, t, now) && IndexOf(index', t')
  {
    t', index' := t, index;
    var rest := t.Keys;
    while rest != {}
      invariant rest <= t.Keys
      invariant t' == ExpireSome(p, t, now, rest)
      invariant IndexOf(index', t')
    {
      var id :| id in rest;
      ExpireOne(p, t, now, rest, id);
      var e := t'[id];
      var waitingTooLong := e.state.Waiting?
        && (Minus(now, e.created) >= p.ticketTtl || Minus(now, e.heartbeat) >= p.heartbeatTimeout);
      if waitingTooLong || (e.state.Offered? && e.state.expires <= now) {
        FinishIndex(index', t', id, e.(state := Expired, terminalAt := Some(now)));
        t' := t'[id := e.(state := Expired, terminalAt := Some(now))];
        index' := index' - {(e.principal, e.key)};
      } else {
        SameEntry(t', id);
      }
      rest := rest - {id};
    }
  }

  // ------------------------------------------------------------------ pruning

  lemma OldestUnique(t: Tickets, x: nat)
    requires OldestAmong(t, TerminalIds(t), x)
    ensures x == Oldest(t)
  {
    assert Before(t, x, Oldest(t)) && Before(t, Oldest(t), x);
  }

  method FindOldest(t: Tickets) returns (x: nat)
    requires TerminalIds(t) != {}
    ensures x == Oldest(t)
  {
    x :| x in TerminalIds(t);
    var rest := TerminalIds(t) - {x};
    while rest != {}
      invariant rest <= TerminalIds(t)
      invariant OldestAmong(t, TerminalIds(t) - rest, x)
    {
      var y :| y in rest;
      assert TerminalIds(t) - (rest - {y}) == (TerminalIds(t) - rest) + {y};
      if !Before(t, x, y) {
        assert forall z | z in TerminalIds(t) - rest :: Before(t, x, z) && Before(t, y, z);
        x := y;
      }
      rest := rest - {y};
    }
    assert TerminalIds(t) - {} == TerminalIds(t);
    OldestUnique(t, x);
  }

  lemma PrunedIndex(index: Index, t: Tickets, t': Tickets)
    requires IndexOf(index, t) && KeepsLive(t, t')
    ensures IndexOf(index, t') && forall k | k in index :: index[k] in t'
  {
  }

  /** Forgets tickets finished long ago, then the oldest ones beyond the cap. */
  method PruneTerminal(t: Tickets, index: Index, now: nat) returns (t': Tickets, index': Index)
    requires IndexOf(index, t)
    ensures t' == Prune(t, now) && IndexOf(index', t')
  {
    t' := Recent(t, now);
    while |TerminalIds(t')| > MAX_TERMINAL
      invariant DropExcess(t') == DropExcess(Recent(t, now))
      decreases |t'|
    {
      var x := FindOldest(t');
      RemoveShrinks(t', x);
      t' := t' - {x};
    }
    PruneKeepsLive(t, now);
    PrunedIndex(index, t, t');
    index' := map k | k in index && index[k] in t' :: index[k];
    assert index' == index;
  }

  // ------------------------------------------------------------------ the queue

  function StillWaiting(t: Tickets): nat -> bool { (id: nat) => id in t && t[id].state.Waiting? }

  lemma {:induction false} FilterIncreasing(p: nat -> bool, w: seq<nat>)
    requires Increasing(w)
    ensures Increasing(Filter(p, w)) && forall id :: id in Filter(p, w) <==> id in w && p(id)
  {
    if w != [] {
      var n := |w| - 1;
      FilterIncreasing(p, w[..n]);
      assert w == w[..n] + [w[n]];
      forall i | 0 <= i < |Filter(p, w[..n])| ensures Filter(p, w[..n])[i] < w[n] {
        assert Filter(p, w[..n])[i] in w[..n];
      }
    }
  }

  /** Dropping what no longer waits leaves the queue of the thinned table. */
  lemma QueueRetained(w: seq<nat>, t: Tickets, t': Tickets)
    requires QueueOf(w, t) && forall id | id in WaitingIds(t') :: id in WaitingIds(t)
    ensures QueueOf(Filter(StillWaiting(t'), w), t')
  {
    FilterIncreasing(StillWaiting(t'), w);
  }

  lemma QueueHead(w: seq<nat>, t: Tickets)
    requires QueueOf(w, t) && w != []
    ensures WaitingIds(t) != {} && w[0] == Min(WaitingIds(t)) && w[0] in t && t[w[0]].state.Waiting?
  {
    assert w[0] in WaitingIds(t);
    var m := Min(WaitingIds(t));
    assert m in w;
  }

  lemma QueueTail(w: seq<nat>, t: Tickets, p: QueuePolicy, now: nat)
    requires QueueOf(w, t) && w != [] && w[0] in WaitingIds(t)
    ensures QueueOf(w[1..], Offer(t, p, w[0], now))
  {
    OfferShrinks(t, p, w[0], now);
    assert w == [w[0]] + w[1..];
    forall id ensures id in w[1..] <==> id in WaitingIds(Offer(t, p, w[0], now)) {
      if id in w[1..] { var i :| 0 <= i < |w[1..]| && w[1..][i] == id; assert w[i + 1] == id && id in w; }
    }
  }

  lemma OfferIndex(index: Index, t: Tickets, p: QueuePolicy, id: nat, now: nat)
    requires IndexOf(index, t) && id in t
    ensures IndexOf(index, Offer(t, p, id, now))
  {
  }

  /** Hands free slots to the front of the queue. */
  method PromoteFront(s: State, w: seq<nat>, ghost index: Index, now: nat) returns (s': State, w': seq<nat>)
    requires Base(s) && QueueOf(w, s.tickets) && IndexOf(index, s.tickets)
    ensures s' == Promote(s, now) && QueueOf(w', s'.tickets) && IndexOf(index, s'.tickets)
  {
    s', w' := s, w;
    while s'.Limit() > 0 && OccupiedU32(s') < s'.Limit()
      invariant Base(s') && QueueOf(w', s'.tickets) && IndexOf(index, s'.tickets)
      invariant Promote(s', now) == Promote(s, now)
      decreases |w'|
    {
      OccupancyExact(s');
      if w' == [] { EmptyQueue(s'.tickets); break; }
      var id := w'[0];
      QueueHead(w', s'.tickets);
      QueueTail(w', s'.tickets, s'.policy, now);
      OfferOk(s', id, now);
      OfferIndex(index, s'.tickets, s'.policy, id, now);
      w' := w'[1..];
      s' := s'.(tickets := Offer(s'.tickets, s'.policy, id, now));
    }
    OccupancyExact(s');
  }

  lemma EmptyQueue(t: Tickets)
    requires QueueOf([], t)
    ensures WaitingIds(t) == {}
  {
  }

  // ------------------------------------------------------------------ one operation at a time

  /** The three tables of a controller. */
  datatype Tables = Tables(state: State, waiting: seq<nat>, index: Index)
  {
    ghost predicate Synced() { QueueOf(waiting, state.tickets) && IndexOf(index, state.tickets) }
  }

  method SettleIn(c: Tables, now: nat) returns (c': Tables)
    requires c.Synced() && Base(c.state)
    ensures c'.Synced() && c'.state == Settle(c.state, now)
  {
    OccupancyExact(c.state);
    var s := c.state;
    if s.pending.Some? && OccupiedU32(s) <= s.pending.value {
      s := s.(capacity := s.pending.value, pending := None);
    }
    assert s == ApplyPending(c.state) && Base(s);
    var w;
    s, w := PromoteFront(s, c.waiting, c.index, now);
    c' := Tables(s, w, c.index);
  }

  lemma ExpiredBase(s: State, now: nat)
    requires Base(s)
    ensures var t := Prune(ExpireTickets(s.policy, s.tickets, now), now);
            Base(s.(reservations := Unexpired(s.reservations, now), tickets := t)) && Thins(s.tickets, t)
  {
    var t := Prune(ExpireTickets(s.policy, s.tickets, now), now);
    ExpireThins(s.policy, s.tickets, now);
    ThinOk(s, s.(reservations := Unexpired(s.reservations, now), tickets := t));
  }

  lemma ThinQueue(w: seq<nat>, t: Tickets, t1: Tickets, t': Tickets)
    requires QueueOf(w, t) && EntriesOk(t) && EntriesOk(t1) && Thins(t, t1) && KeepsLive(t1, t')
    ensures QueueOf(Filter(StillWaiting(t1), w), t')
  {
    QueueRetained(w, t, t1);
    assert WaitingIds(t') == WaitingIds(t1);
  }

  lemma ExpireEntriesThin(p: QueuePolicy, t: Tickets, now: nat)
    requires EntriesOk(t)
    ensures Thins(t, ExpireTickets(p, t, now)) && EntriesOk(ExpireTickets(p, t, now))
  {
  }

  method ExpireIn(c: Tables, now: nat) returns (c': Tables)
    requires c.Synced() && Base(c.state)
    ensures c'.Synced() && c'.state == Expire(c.state, now)
  {
    var s := c.state;
    var t, index := ExpireEach(s.policy, s.tickets, c.index, now);
    var w := Filter(StillWaiting(t), c.waiting);
    ghost var t1 := t;
    ExpireEntriesThin(s.policy, s.tickets, now);
    t, index := PruneTerminal(t, index, now);
    PruneKeepsLive(t1, now);
    ThinQueue(c.waiting, s.tickets, t1, t);
    ExpiredBase(s, now);
    c' := SettleIn(Tables(s.(reservations := Unexpired(s.reservations, now), tickets := t), w, index), now);
  }

  // ------------------------------------------------------------------ joining

  lemma EnqueueSync(c: Tables, principal: nat, key: Key, now: nat)
    requires c.Synced() && IdsOk(c.state) && !exists id :: LiveTicketOf(c.state.tickets, principal, id)
    requires EntriesOk(c.state.tickets)
    ensures Tables(Enqueue(c.state, principal, key, now), c.waiting + [c.state.nextTicket],
                   c.index[(principal, key) := c.state.nextTicket]).Synced()
  {
    EnqueueQueue(c, principal, key, now);
    EnqueueIndex(c, principal, key, now);
  }

  lemma EnqueueQueue(c: Tables, principal: nat, key: Key, now: nat)
    requires QueueOf(c.waiting, c.state.tickets) && IdsOk(c.state)
    ensures QueueOf(c.waiting + [c.state.nextTicket], Enqueue(c.state, principal, key, now).tickets)
  {
    forall i | 0 <= i < |c.waiting| ensures c.waiting[i] < c.state.nextTicket {
      assert c.waiting[i] in WaitingIds(c.state.tickets);
    }
  }

  lemma EnqueueIndex(c: Tables, principal: nat, key: Key, now: nat)
    requires IndexOf(c.index, c.state.tickets) && IdsOk(c.state) && EntriesOk(c.state.tickets)
    requires !exists id :: LiveTicketOf(c.state.tickets, principal, id)
    ensures IndexOf(c.index[(principal, key) := c.state.nextTicket], Enqueue(c.state, principal, key, now).tickets)
  {
    forall id | id in c.state.tickets && c.state.tickets[id].terminalAt.None?
      ensures c.state.tickets[id].principal != principal {
      assert !LiveTicketOf(c.state.tickets, principal, id);
    }
  }

  /** The index finds the principal's live ticket for the key, and only that. */
  lemma IndexFinds(c: Tables, principal: nat, key: Key)
    requires IndexOf(c.index, c.state.tickets) && EntriesOk(c.state.tickets) && OneLive(c.state.tickets)
    ensures (principal, key) in c.index <==> exists id ::
            LiveTicketOf(c.state.tickets, principal, id) && c.state.tickets[id].key == key
    ensures forall id | LiveTicketOf(c.state.tickets, principal, id) && c.state.tickets[id].key == key ::
              (principal, key) in c.index && c.index[(principal, key)] == id
  {
    if (principal, key) in c.index {
      assert LiveTicketOf(c.state.tickets, principal, c.index[(principal, key)]);
    }
  }

  method RequestJoinIn(c: Tables, principal: nat, key: Option<Key>, now: nat) returns (c': Tables, d: Decision)
    requires c.Synced() && AdmissionOk(c.state)
    ensures c'.Synced() && (c'.state, d) == RequestJoin(c.state, principal, key, now)
  {
    ExpireOk(c.state, now);
    c' := ExpireIn(c, now);
    c', d := JoinNowIn(c', principal, key, now);
  }

  method JoinNowIn(c: Tables, principal: nat, key: Option<Key>, now: nat) returns (c': Tables, d: Decision)
    requires c.Synced() && AdmissionOk(c.state)
    ensures c'.Synced() && (c'.state, d) == JoinNow(c.state, principal, key, now)
  {
    c' := c;
    var s := c.state;
    if key.None? { return c, Rejected(InvalidIdempotencyKey); }
    if s.nextLease == U64_MAX { return c, Rejected(QueueFull); }
    if s.Limit() == 0 { return c, Paused; }
    IndexFinds(c, principal, key.value);
    if (principal, key.value) in c.index { return c, Queued(c.index[(principal, key.value)]); }
    if exists id | id in s.tickets :: s.tickets[id].state.Live() && s.tickets[id].principal == principal {
      ghost var id :| id in s.tickets && s.tickets[id].state.Live() && s.tickets[id].principal == principal;
      assert LiveTicketOf(s.tickets, principal, id);
      return c, Rejected(AlreadyQueued);
    }
    assert !exists id :: LiveTicketOf(s.tickets, principal, id);
    OccupancyExact(s);
    if OccupiedU32(s) < s.Limit() {
      var (s', lease) := Admit(s, principal);
      return c.(state := s'), AdmittedNow(lease);
    }
    if !s.policy.enabled { return c, Rejected(QueueDisabled); }
    if |LiveIds(s.tickets)| >= s.policy.maxDepth || s.nextTicket == U64_MAX { return c, Rejected(QueueFull); }
    EnqueueSync(c, principal, key.value, now);
    return Tables(Enqueue(s, principal, key.value, now), c.waiting + [s.nextTicket],
                  c.index[(principal, key.value) := s.nextTicket]),
           Queued(s.nextTicket);
  }

  // ------------------------------------------------------------------ ticket operations

  lemma BeatSync(c: Tables, id: nat, now: nat)
    requires c.Synced()
    ensures c.(state := Beat(c.state, id, now)).Synced()
  {
    if id in c.state.tickets { BeatSets(c.state.tickets, id, now); }
  }

  method HeartbeatIn(c: Tables, id: nat, now: nat) returns (c': Tables)
    requires c.Synced() && AdmissionOk(c.state)
    ensures c'.Synced() && c'.state == Heartbeat(c.state, id, now)
  {
    c' := ExpireIn(c, now);
    BeatSync(c', id, now);
    c' := c'.(state := Beat(c'.state, id, now));
  }

  function OtherThan(id: nat): nat -> bool { (x: nat) => x != id }

  lemma FinishQueue(w: seq<nat>, t: Tickets, id: nat, state: TicketState, now: nat, t': Tickets)
    requires QueueOf(w, t) && EntriesOk(t) && id in t && !state.Live() && KeepsLive(Finish(t, id, state, now), t')
    ensures QueueOf(Filter(OtherThan(id), w), t')
  {
    FilterIncreasing(OtherThan(id), w);
    forall x ensures x in WaitingIds(t') <==> x in WaitingIds(t) && x != id {
      if x in WaitingIds(t) && x != id { assert Finish(t, id, state, now)[x].terminalAt.None?; }
    }
  }

  /** Takes a live ticket off the queue and the index. */
  method FinishIn(c: Tables, id: nat, state: TicketState, now: nat) returns (c': Tables)
    requires c.Synced() && Base(c.state) && id in c.state.tickets && c.state.tickets[id].state.Live() && !state.Live()
    ensures c'.Synced() && c'.state == FinishTicket(c.state, id, state, now)
  {
    var t := c.state.tickets;
    var e := t[id].(state := state, terminalAt := Some(now));
    FinishIndex(c.index, t, id, e);
    var w := Filter(OtherThan(id), c.waiting);
    var t', index := PruneTerminal(t[id := e], c.index - {(e.principal, e.key)}, now);
    PruneKeepsLive(t[id := e], now);
    FinishQueue(c.waiting, t, id, state, now, t');
    c' := Tables(c.state.(tickets := t'), w, index);
  }

  method CancelIn(c: Tables, id: nat, now: nat) returns (c': Tables, r: CancelResult)
    requires c.Synced() && AdmissionOk(c.state)
    ensures c'.Synced() && (c'.state, r) == Cancel(c.state, id, now)
  {
    ExpireOk(c.state, now);
    c' := ExpireIn(c, now);
    if id !in c'.state.tickets { return c', NoTicket; }
    match c'.state.tickets[id].state {
      case Admitted(_) => return c', AlreadyAdmitted;
      case Expired => return c', AlreadyExpired;
      case Cancelled => return c', AlreadyExpired;
      case _ =>
        FinishTicketOk(c'.state, id, Cancelled, now);
        c' := FinishIn(c', id, Cancelled, now);
        c' := SettleIn(c', now);
        return c', Withdrawn;
    }
  }

  method ClaimIn(c: Tables, id: nat, now: nat) returns (c': Tables, r: Result<Lease, ClaimError>)
    requires c.Synced() && AdmissionOk(c.state)
    ensures c'.Synced() && (c'.state, r) == Claim(c.state, id, now)
  {
    ExpireOk(c.state, now);
    c' := ExpireIn(c, now);
    if id !in c'.state.tickets { return c', Err(ClaimMissing); }
    match c'.state.tickets[id].state {
      case Waiting => return c', Err(NotOffered);
      case Expired => return c', Err(ClaimExpired);
      case Cancelled => return c', Err(ClaimCancelled);
      case Admitted(_) => return c', Err(ClaimAdmitted);
      case Offered(_) =>
        var principal := c'.state.tickets[id].principal;
        c' := FinishIn(c', id, Admitted(c'.state.nextLease), now);
        var (s, lease) := Admit(c'.state, principal);
        return c'.(state := s), Ok(lease);
    }
  }

  // ------------------------------------------------------------------ leases and capacity

  method ReleaseIn(c: Tables, lease: Lease, reason: ReleaseReason, now: nat) returns (c': Tables)
    requires c.Synced() && Base(c.state)
    ensures c'.Synced() && c'.state == Release(c.state, lease, reason, now)
  {
    var s := c.state;
    if !s.Holds(lease) { return c; }
    var reserved := s.reservations;
    if reason.Unexpected? && s.policy.reconnectGrace > 0 {
      reserved := reserved[lease.id := Reservation(lease.principal, now + s.policy.reconnectGrace)];
    }
    DropLeaseOk(s, lease, reserved);
    c' := SettleIn(c.(state := s.(active := s.active - {lease.id}, reservations := reserved)), now);
  }

  lemma ForgetSync(c: Tables, ticket: nat)
    requires c.Synced() && EntriesOk(c.state.tickets) && ticket in c.state.tickets
             && c.state.tickets[ticket].terminalAt.Some?
    ensures c.(state := c.state.(tickets := c.state.tickets - {ticket})).Synced()
  {
    assert WaitingIds(c.state.tickets - {ticket}) == WaitingIds(c.state.tickets);
  }

  method RollbackIn(c: Tables, ticket: nat, lease: Lease, now: nat) returns (c': Tables)
    requires c.Synced() && AdmissionOk(c.state)
    ensures c'.Synced() && c'.state == Rollback(c.state, ticket, lease, now)
  {
    c' := c;
    if !c.state.Holds(lease) { return; }
    if ticket in c.state.tickets {
      var e := c.state.tickets[ticket];
      if e.principal != lease.principal || e.state != Admitted(lease.id) { return; }
      ForgetTicketOk(c.state, ticket);
      ForgetSync(c, ticket);
      c' := c.(state := c.state.(tickets := c.state.tickets - {ticket}));
    }
    c' := ReleaseIn(c', lease, Intentional, now);
  }

  method ResumeIn(c: Tables, token: nat, principal: nat, now: nat) returns (c': Tables, r: Option<Lease>)
    requires c.Synced() && AdmissionOk(c.state)
    ensures c'.Synced() && (c'.state, r) == Resume(c.state, token, principal, now)
  {
    c' := ExpireIn(c, now);
    var (s, lease) := ResumeNow(c'.state, token, principal);
    c', r := c'.(state := s), lease;
  }

  method ApplyCapacityIn(c: Tables, capacity: nat, revision: nat, now: nat) returns (c': Tables)
    requires c.Synced() && AdmissionOk(c.state) && capacity <= U32_MAX
    ensures c'.Synced() && c'.state == ApplyCapacity(c.state, capacity, revision, now)
  {
    var s := c.state;
    if revision <= s.revision { return c; }
    OccupancyExact(s);
    if capacity < OccupiedU32(s) {
      return c.(state := s.(revision := revision, pending := Some(capacity)));
    }
    s := s.(revision := revision, capacity := capacity, pending := None);
    assert Base(s);
    var w;
    s, w := PromoteFront(s, c.waiting, c.index, now);
    c' := Tables(s, w, c.index);
  }

  // ------------------------------------------------------------------ reported positions

  function Elements(w: seq<nat>): set<nat> { set x | x in w }

  lemma {:induction false} ElementsSize(w: seq<nat>)
    requires Increasing(w)
    ensures |Elements(w)| == |w|
  {
    if w != [] {
      var init, last := w[..|w| - 1], w[|w| - 1];
      ElementsSize(init);
      assert w == init + [last];
      assert Elements(w) == Elements(init) + {last};
    }
  }

  lemma PositionInQueue(s: State, w: seq<nat>, i: nat)
    requires QueueOf(w, s.tickets) && i < |w|
    ensures QueuePosition(s, w[i]) == i + 1
  {
    var front := w[..i + 1];
    ElementsSize(front);
    forall x ensures x in Ahead(s, w[i]) <==> x in Elements(front) {
      if x in Ahead(s, w[i]) { var n :| 0 <= n < |w| && w[n] == x; assert front[n] == x; }
      if x in front { assert x in w; }
    }
    assert Ahead(s, w[i]) == Elements(front);
  }

  /** Counts through the queue up to the ticket; 0 only for a ticket that does not wait. */
  method ReportPosition(c: Tables, id: nat) returns (position: nat)
    requires c.Synced()
    ensures position == if id in WaitingIds(c.state.tickets) then QueuePosition(c.state, id) else 0
  {
    for i := 0 to |c.waiting|
      invariant id !in c.waiting[..i]
    {
      if c.waiting[i] == id {
        PositionInQueue(c.state, c.waiting, i);
        return i + 1;
      }
    }
    return 0;
  }

  /** One provisioned session's controller. Every operation is its specification, keeps the capacity,
      fairness and table invariants, and leaves a state that evolved from the one before. */
  class AdmissionController {
    var state: State
    var waiting: seq<nat>
    var index: Index

    ghost predicate Valid()
      reads this
    {
      AdmissionOk(state) && QueueOf(waiting, state.tickets) && IndexOf(index, state.tickets)
    }

    constructor (session: SessionKey, policy: QueuePolicy, capacity: nat, revision: nat)
      requires capacity <= U32_MAX
      ensures Valid() && state == NewState(session, policy, capacity, revision)
    {
      NewStateOk(session, policy, capacity, revision);
      state, waiting, index := NewState(session, policy, capacity, revision), [], map[];
    }

    method RequestJoinAt(principal: nat, key: string, now: nat) returns (d: Decision)
      requires Valid()
      modifies this
      ensures Valid() && Keeps(old(state), state)
      ensures (state, d) == RequestJoin(old(state), principal, if |key| <= MAX_KEY_LENGTH then Some(key) else None, now)
      ensures Joined(Expire(old(state), now), principal, state, d)
    {
      var k := if |key| <= MAX_KEY_LENGTH then Some(key) else None;
      RequestJoinOk(state, principal, k, now);
      var c;
      c, d := RequestJoinIn(Tables(state, waiting, index), principal, k, now);
      state, waiting, index := c.state, c.waiting, c.index;
    }

    method HeartbeatAt(id: nat, now: nat) returns (position: nat)
      requires Valid()
      modifies this
      ensures Valid() && Keeps(old(state), state) && state == Heartbeat(old(state), id, now)
      ensures position == if id in WaitingIds(state.tickets) then QueuePosition(state, id) else 0
    {
      HeartbeatOk(state, id, now);
      var c := HeartbeatIn(Tables(state, waiting, index), id, now);
      position := ReportPosition(c, id);
      state, waiting, index := c.state, c.waiting, c.index;
    }

    method MaintainAt(now: nat)
      requires Valid()
      modifies this
      ensures Valid() && Keeps(old(state), state) && state == Expire(old(state), now)
    {
      ExpireOk(state, now);
      var c := ExpireIn(Tables(state, waiting, index), now);
      state, waiting, index := c.state, c.waiting, c.index;
    }

    method CancelAt(id: nat, now: nat) returns (r: CancelResult)
      requires Valid()
      modifies this
      ensures Valid() && Keeps(old(state), state) && (state, r) == Cancel(old(state), id, now)
    {
      CancelOk(state, id, now);
      var c;
      c, r := CancelIn(Tables(state, waiting, index), id, now);
      state, waiting, index := c.state, c.waiting, c.index;
    }

    method ClaimOfferAt(id: nat, now: nat) returns (r: Result<Lease, ClaimError>)
      requires Valid()
      modifies this
      ensures Valid() && Keeps(old(state), state) && (state, r) == Claim(old(state), id, now)
      ensures state.Occupied() == Expire(old(state), now).Occupied()
    {
      ClaimOk(state, id, now);
      var c;
      c, r := ClaimIn(Tables(state, waiting, index), id, now);
      state, waiting, index := c.state, c.waiting, c.index;
    }

    method RollbackClaimAt(ticket: nat, lease: Lease, now: nat)
      requires Valid()
      modifies this
      ensures Valid() && Keeps(old(state), state) && state == Rollback(old(state), ticket, lease, now)
    {
      RollbackOk(state, ticket, lease, now);
      var c := RollbackIn(Tables(state, waiting, index), ticket, lease, now);
      state, waiting, index := c.state, c.waiting, c.index;
    }

    method ReleaseAt(lease: Lease, reason: ReleaseReason, now: nat)
      requires Valid()
      modifies this
      ensures Valid() && Keeps(old(state), state) && state == Release(old(state), lease, reason, now)
    {
      ReleaseOk(state, lease, reason, now);
      var c := ReleaseIn(Tables(state, waiting, index), lease, reason, now);
      state, waiting, index := c.state, c.waiting, c.index;
    }

    method ResumeAt(token: nat, principal: nat, now: nat) returns (r: Option<Lease>)
      requires Valid()
      modifies this
      ensures Valid() && Keeps(old(state), state) && (state, r) == Resume(old(state), token, principal, now)
      ensures state.Occupied() == Expire(old(state), now).Occupied()
    {
      ResumeOk(state, token, principal, now);
      var c;
      c, r := ResumeIn(Tables(state, waiting, index), token, principal, now);
      state, waiting, index := c.state, c.waiting, c.index;
    }

    method ApplyCapacityAt(capacity: nat, revision: nat, now: nat)
      requires Valid() && capacity <= U32_MAX
      modifies this
      ensures Valid() && Evolves(old(state), state) && state == ApplyCapacity(old(state), capacity, revision, now)
      ensures revision > old(state).revision ==> state.Limit() == capacity
    {
      ApplyCapacityOk(state, capacity, revision, now);
      var c := ApplyCapacityIn(Tables(state, waiting, index), capacity, revision, now);
      state, waiting, index := c.state, c.waiting, c.index;
    }
  }
}
