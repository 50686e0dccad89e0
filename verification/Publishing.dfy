/** Publishing on values: message validation, sequence planning, the projected state capacity and
    the commit. */
module Publishing {
  import opened Model
  import opened Queue
  import opened Cache
  import opened RateLimit
  import opened SessionGraph
  import opened Commands
  import Removing

  datatype Rejection =
    | AuthenticationNeeded
    | MembershipNeeded
    | SubscriptionNeeded
    | EntityRequired
    | EntityNotYours
    | PolicyDenied

  datatype CoreError =
    | ReservedZeroId
    | InvalidConfiguration
    | AuthenticationRequired
    | AlreadyAuthenticated
    | AuthenticationFailed
    | UnknownConnection(connection: nat)
    | ConnectionLimitReached
    | AccessDenied
    | UnknownChannel(channel: nat)
    | ChannelPolicyMismatch(channel: nat)
    | SessionNotFound(session: SessionKey)
    | SessionAlreadyProvisioned(session: SessionKey)
    | SessionLimitReached
    | SessionMembershipRequired(session: SessionKey)
    | MembershipLimitReached
    | SpaceNotFound(space: SpaceKey)
    | SpaceAlreadyExists(space: SpaceKey)
    | SpaceLimitReached
    | SpaceIdHistoryLimitReached
    | InvalidSpace(spaceError: SpaceError)
    | ParentSpaceNotFound(parent: nat)
    | ParentAnchorNotFound(anchor: nat)
    | ParentAnchorInWrongSpace(anchor: nat, expected: nat)
    | EpochDidNotAdvance(current: nat, proposed: nat)
    | SpaceEpochMismatch(current: nat, received: nat)
    | SubscriptionRequired(space: SpaceKey)
    | SubscriptionLimitReached
    | EntityLimitReached
    | OwnedEntityLimitReached
    | EntityNotFound(entity: nat)
    | EntityNotOwned(entity: nat)
    | EntitySpaceMismatch(entity: nat)
    | InvalidEntityPosition(positionError: PositionError)
    | SpatialCellOutOfRange
    | StateEntryLimitReached
    | StateByteLimitReached
    | SequenceKeyLimitReached
    | PayloadTooLarge(actual: nat, limit: nat)
    | MissingKey
    | InvalidCoalesceKey
    | StaleSequence(received: nat, last: nat)
    | PublishRateLimited(rateError: RateError)
    | AuthorityRejected(rejection: Rejection)
    | AuthorityEmissionLimitExceeded
    | JournalOutboxSaturated
    | AdmissionRateLimited
    | AdmissionLeaseRequired(session: SessionKey)
    | InvalidAdmissionLease(session: SessionKey)
    | QueueRejected

  datatype Channel = Channel(id: nat, delivery: DeliveryClass, persistence: PersistenceClass, maxPayload: nat)

  type Channels = map<nat, Channel>

  /** What an authority may publish instead of the proposal. */
  datatype Emission = Emission(
    space: nat, epoch: nat, entity: Option<nat>, channel: nat, sequence: nat,
    delivery: DeliveryClass, persistence: PersistenceClass, coalesceKey: Option<CoalesceKey>, payload: Bytes)
  {
    function Message(sk: SessionKey): OutboundMessage {
      OutboundMessage(sk.namespace, sk.session, space, epoch, entity, channel, sequence, delivery, persistence,
                      coalesceKey, None, payload)
    }
  }

  /** The verdict of a channel's authority, which the core consults and cannot see into. */
  datatype Verdict =
    | Accept
    | Reject(rejection: Rejection)
    | Transform(coalesceKey: Option<CoalesceKey>, payload: Bytes)
    | Emit(emissions: seq<Emission>)

  function SequenceKeyOf(c: nat, m: OutboundMessage): SequenceKey {
    SequenceKey(c, m.space, m.epoch, m.entity, m.channel, if m.coalesceKey.Some?
                then m.coalesceKey.value.component else 0)
  }

  function StateKeyOf(m: OutboundMessage): CacheKey {
    CacheKey(m.space, m.epoch, m.entity, m.channel, if m.coalesceKey.Some? then m.coalesceKey.value.component else 0)
  }

  predicate CoalesceKeyMatches(m: OutboundMessage) {
    m.coalesceKey.Some? ==> m.coalesceKey.value.channel == m.channel && m.coalesceKey.value.entity == m.entity
  }

  predicate IdsNonZero(m: OutboundMessage) {
    && m.space != 0 && m.epoch != 0 && m.channel != 0 && m.entity != Some(0)
    && (m.coalesceKey.Some? ==> m.coalesceKey.value.channel != 0 && m.coalesceKey.value.entity != Some(0))
  }

  function Min(a: nat, b: nat): nat { if a <= b then a else b }

  /** The larger of the stored and the planned number of a key. */
  function Latest(stored: map<SequenceKey, nat>, planned: map<SequenceKey, nat>, k: SequenceKey): Option<nat> {
    if k in stored && k in planned then Some(if stored[k] < planned[k] then planned[k] else stored[k])
    else if k in stored then Some(stored[k])
    else if k in planned then Some(planned[k])
    else None
  }

  /** Validation of one message against its channel and the session, sequence check last. */
  function ValidateMessage(s: Session, sk: SessionKey, config: CoreConfig, channels: Channels,
                           c: nat, m: OutboundMessage,
                           planned: map<SequenceKey, nat>): Option<CoreError>
  {
    if !IdsNonZero(m) then Some(ReservedZeroId)
    else if m.channel !in channels then Some(UnknownChannel(m.channel))
    else
      var channel := channels[m.channel];
      if channel.delivery != m.delivery || !channel.persistence.SameKind(m.persistence)
         then Some(ChannelPolicyMismatch(m.channel))
      else if m.routingPosition.Some? && !m.delivery.IsReplaceable() then Some(AuthorityRejected(PolicyDenied))
      else if |m.payload| > Min(config.maxPayload, channel.maxPayload)
      then Some(PayloadTooLarge(|m.payload|, Min(config.maxPayload, channel.maxPayload)))
      else if m.delivery.IsReplaceable() && m.coalesceKey.None? then Some(MissingKey)
      else if !CoalesceKeyMatches(m) then Some(InvalidCoalesceKey)
      else if m.space !in s.spaces then Some(SpaceNotFound(SpaceKey(sk, m.space)))
      else if s.spaces[m.space].epoch != m.epoch then Some(SpaceEpochMismatch(s.spaces[m.space].epoch, m.epoch))
      else if m.entity.Some? && m.entity.value !in s.entities then Some(EntityNotFound(m.entity.value))
      else if m.entity.Some? && (s.entities[m.entity.value].space != m.space
                                 || s.entities[m.entity.value].epoch != m.epoch)
      then Some(EntitySpaceMismatch(m.entity.value))
      else
        var last := Latest(s.sequences, planned, SequenceKeyOf(c, m));
        if last.Some? && m.sequence <= last.value then Some(StaleSequence(m.sequence, last.value)) else None
  }

  /** What every message that passed validation satisfies. */
  ghost predicate Sound(s: Session, sk: SessionKey, m: OutboundMessage) {
    && m.Session() == sk && RefOk(s, m.space, m.epoch, m.entity)
    && (m.delivery.IsReplaceable() ==> HasKey(m))
  }

  lemma ValidatedIsSound(s: Session, sk: SessionKey, config: CoreConfig, channels: Channels, c: nat, m: OutboundMessage,
                         planned: map<SequenceKey, nat>)
    requires ValidateMessage(s, sk, config, channels, c, m, planned).None? && m.Session() == sk
    ensures Sound(s, sk, m)
  {
  }

  // ------------------------------------------------------------------ sequences

  /** Validates the batch in order; each accepted message raises the plan for its key. */
  function PlanSequences(s: Session, sk: SessionKey, config: CoreConfig, channels: Channels, c: nat,
                         messages: seq<OutboundMessage>, planned: map<SequenceKey,
                           nat>): Result<map<SequenceKey, nat>, CoreError>
  {
    if messages == [] then Ok(planned)
    else
      var r := PlanSequences(s, sk, config, channels, c, messages[..|messages| - 1], planned);
      if r.Err? then r
      else
        var m := messages[|messages| - 1];
        var e := ValidateMessage(s, sk, config, channels, c, m, r.value);
        if e.Some? then Err(e.value) else Ok(r.value[SequenceKeyOf(c, m) := m.sequence])
  }

  /** Keys of the plan name current scopes of the publisher, and every planned number is new. */
  ghost predicate PlanOk(s: Session, c: nat, plan: map<SequenceKey, nat>) {
    forall k | k in plan ::
      && k.connection == c && RefOk(s, k.space, k.epoch, k.entity)
      && (k in s.sequences ==> s.sequences[k] < plan[k])
  }

  /** Every planned number is new, and every message of a planned batch is sound. */
  lemma {:induction false} PlannedIsOk(s: Session, sk: SessionKey, config: CoreConfig, channels: Channels, c: nat,
                                       messages: seq<OutboundMessage>, planned: map<SequenceKey, nat>)
    requires PlanSequences(s, sk, config, channels, c, messages, planned).Ok?
    requires PlanOk(s, c, planned) && forall i | 0 <= i < |messages| :: messages[i].Session() == sk
    ensures PlanOk(s, c, PlanSequences(s, sk, config, channels, c, messages, planned).value)
    ensures forall i | 0 <= i < |messages| :: Sound(s, sk, messages[i])
  {
    if messages != [] {
      var init, m := messages[..|messages| - 1], messages[|messages| - 1];
      PlannedIsOk(s, sk, config, channels, c, init, planned);
      ValidatedIsSound(s, sk, config, channels, c, m, PlanSequences(s, sk, config, channels, c, init, planned).value);
    }
  }

  /** The plan holds the last number of each key, and within the batch the numbers of one key
      strictly increase. */
  lemma {:induction false} PlannedIncreases(s: Session, sk: SessionKey, config: CoreConfig, channels: Channels, c: nat,
                                            messages: seq<OutboundMessage>, planned: map<SequenceKey, nat>, i: nat)
    requires PlanSequences(s, sk, config, channels, c, messages, planned).Ok? && i < |messages|
    ensures var plan := PlanSequences(s, sk, config, channels, c, messages, planned).value;
            SequenceKeyOf(c, messages[i]) in plan && messages[i].sequence <= plan[SequenceKeyOf(c, messages[i])]
    ensures forall j | i < j < |messages| && SequenceKeyOf(c, messages[i]) == SequenceKeyOf(c, messages[j]) ::
              messages[i].sequence < messages[j].sequence
  {
    if i < |messages| - 1 {
      PlannedIncreases(s, sk, config, channels, c, messages[..|messages| - 1], planned, i);
    }
  }

  function NewKeys(s: Session, plan: map<SequenceKey, nat>): set<SequenceKey> {
    set k | k in plan && k !in s.sequences
  }

  lemma PlanSize(s: Session, plan: map<SequenceKey, nat>)
    ensures |s.sequences + plan| == |s.sequences| + |NewKeys(s, plan)|
  {
    assert (s.sequences + plan).Keys == s.sequences.Keys + NewKeys(s, plan);
  }

  // ------------------------------------------------------------------ state capacity

  /** The registered time to live of the message's channel, whatever the message says. */
  function TtlOf(channels: Channels, channel: nat): Option<nat> {
    if channel in channels && channels[channel].persistence.Stateful? then channels[channel].persistence.ttl else None
  }

  function StoredOf(channels: Channels, m: OutboundMessage, now: nat): StoredEntry {
    StoredEntry(CacheEntry(m.sequence, m.payload), TtlOf(channels, m.channel), now)
  }

  /** The store after the stateful messages of a batch, later ones overwriting earlier ones. */
  function PutAll(store: Store, channels: Channels, messages: seq<OutboundMessage>, now: nat): Store {
    if messages == [] then store
    else
      var m := messages[|messages| - 1];
      var before := PutAll(store, channels, messages[..|messages| - 1], now);
      if m.persistence.Stateful? then before[StateKeyOf(m) := StoredOf(channels, m, now)] else before
  }

  lemma PutAllSnoc(store: Store, channels: Channels, messages: seq<OutboundMessage>, i: nat, now: nat)
    requires i < |messages|
    ensures PutAll(store, channels, messages[..i + 1], now)
         == var before := PutAll(store, channels, messages[..i], now);
            if messages[i].persistence.Stateful?
               then before[StateKeyOf(messages[i]) := StoredOf(channels, messages[i], now)]
            else before
  {
    assert messages[..i + 1][..i] == messages[..i];
  }

  /** The lengths recorded so far describe the projected store. */
  ghost predicate Projects(store: Store, after: Store, projected: map<CacheKey, nat>) {
    && (forall k | k in projected :: k in after && |after[k].entry.payload| == projected[k])
    && (forall k | k !in projected :: k in after <==> k in store)
    && (forall k | k !in projected && k in store :: after[k] == store[k])
  }

  lemma ProjectsPut(store: Store, after: Store, projected: map<CacheKey, nat>, k: CacheKey, e: StoredEntry)
    requires Projects(store, after, projected)
    ensures Projects(store, after[k := e], projected[k := |e.entry.payload|])
    ensures k in after <==> k in projected || k in store
    ensures k in after ==> |after[k].entry.payload| == if k in projected then projected[k] else |store[k].entry.payload|
  {
  }

  lemma PutCounts(before: Store, k: CacheKey, e: StoredEntry, previous: Option<nat>)
    requires previous == if k in before then Some(|before[k].entry.payload|) else None
    ensures |before[k := e]| == |before| + (if previous.Some? then 0 else 1)
    ensures previous.Some? ==> previous.value <= ByteLen(before)
    ensures ByteLen(before[k := e]) == ByteLen(before) - (if previous.Some? then previous.value
                                                          else 0) + |e.entry.payload|
  {
    ByteLenPut(before, k, e);
    PutSize(before, k, e);
    if k in before { ByteLenRemove(before, k); }
  }

  /** The projection loop: for any batch, repeated keys included, the counts it computes are exactly
      the entry and byte counts of the store after the commit, and no subtraction saturates. */
  method ProjectCapacity(store: Store, stateBytes: nat, channels: Channels, messages: seq<OutboundMessage>, now: nat)
    returns (entries: nat, bytes: nat)
    requires stateBytes == ByteLen(store)
    ensures entries == |PutAll(store, channels, messages, now)|
    ensures bytes == ByteLen(PutAll(store, channels, messages, now))
  {
    entries, bytes := |store|, stateBytes;
    var projected: map<CacheKey, nat> := map[];
    for i := 0 to |messages|
      invariant Projects(store, PutAll(store, channels, messages[..i], now), projected)
      invariant entries == |PutAll(store, channels, messages[..i], now)|
                && bytes == ByteLen(PutAll(store, channels, messages[..i], now))
    {
      var m := messages[i];
      ghost var after := PutAll(store, channels, messages[..i], now);
      PutAllSnoc(store, channels, messages, i, now);
      if m.persistence.Stateful? {
        var key := StateKeyOf(m);
        var previous := if key in projected then Some(projected[key])
                        else if key in store then Some(|store[key].entry.payload|) else None;
        PutCounts(after, key, StoredOf(channels, m, now), previous);
        ProjectsPut(store, after, projected, key, StoredOf(channels, m, now));
        if previous.Some? {
          bytes := Removing.Saturating(bytes, previous.value);
        } else {
          entries := entries + 1;
        }
        bytes := bytes + |m.payload|;
        projected := projected[key := |m.payload|];
      }
    }
    assert messages[..|messages|] == messages;
  }

  /** The commit loop: entries are written one by one and the byte counter is kept by difference. */
  method CommitState(store: Store, stateBytes: nat, channels: Channels, messages: seq<OutboundMessage>, now: nat)
    returns (store': Store, bytes: nat)
    requires stateBytes == ByteLen(store)
    ensures store' == PutAll(store, channels, messages, now) && bytes == ByteLen(store')
  {
    store', bytes := store, stateBytes;
    for i := 0 to |messages|
      invariant store' == PutAll(store, channels, messages[..i], now) && bytes == ByteLen(store')
    {
      var m := messages[i];
      PutAllSnoc(store, channels, messages, i, now);
      if m.persistence.Stateful? {
        var key, entry := StateKeyOf(m), StoredOf(channels, m, now);
        PutCounts(store', key, entry, if key in store' then Some(|store'[key].entry.payload|) else None);
        if key in store' {
          var previous := |store'[key].entry.payload|;
          bytes := Removing.Saturating(bytes, previous);
        }
        store' := store'[key := entry];
        bytes := bytes + |m.payload|;
      }
    }
    assert messages[..|messages|] == messages;
  }

  lemma {:induction false} PutAllKeys(store: Store, channels: Channels,
                                      messages: seq<OutboundMessage>, now: nat, k: CacheKey)
    requires k in PutAll(store, channels, messages, now)
    ensures k in store || exists i :: 0 <= i < |messages| && StateKeyOf(messages[i]) == k
  {
    if messages != [] && k in PutAll(store, channels, messages[..|messages| - 1], now) {
      PutAllKeys(store, channels, messages[..|messages| - 1], now, k);
      if k !in store {
        var i :| 0 <= i < |messages| - 1 && StateKeyOf(messages[..|messages| - 1][i]) == k;
        assert StateKeyOf(messages[i]) == k;
      }
    } else if messages != [] {
      assert StateKeyOf(messages[|messages| - 1]) == k;
    }
  }

  // ------------------------------------------------------------------ commit of one session

  /** Planned sequences and stateful values written. */
  ghost function CommitSession(s: Session, plan: map<SequenceKey, nat>, channels: Channels,
                               messages: seq<OutboundMessage>, now: nat): Session {
    s.(sequences := s.sequences + plan,
       state := PutAll(s.state, channels, messages, now),
       stateBytes := ByteLen(PutAll(s.state, channels, messages, now)))
  }

  ghost predicate CanCommit(s: Session, sk: SessionKey, config: CoreConfig, c: nat, plan: map<SequenceKey,
                            nat>, channels: Channels,
                            messages: seq<OutboundMessage>, now: nat) {
    && PlanOk(s, c, plan) && c in s.members
    && (forall i | 0 <= i < |messages| :: Sound(s, sk, messages[i]))
    && |s.sequences| + |NewKeys(s, plan)| <= config.maxSequenceKeys
    && |PutAll(s.state, channels, messages, now)| <= config.maxStateEntries
    && ByteLen(PutAll(s.state, channels, messages, now)) <= config.maxStateBytes
  }

  lemma CommitKeys(s: Session, sk: SessionKey, config: CoreConfig, c: nat, plan: map<SequenceKey,
                   nat>, channels: Channels,
                   messages: seq<OutboundMessage>, now: nat)
    requires KeysOk(s) && CanCommit(s, sk, config, c, plan, channels, messages, now)
    ensures KeysOk(CommitSession(s, plan, channels, messages, now))
  {
    var s' := CommitSession(s, plan, channels, messages, now);
    forall k | k in s'.state ensures RefOk(s', k.space, k.epoch, k.entity) {
      PutAllKeys(s.state, channels, messages, now, k);
      if k !in s.state {
        var i :| 0 <= i < |messages| && StateKeyOf(messages[i]) == k;
        assert Sound(s, sk, messages[i]);
      }
    }
  }

  lemma CommitOk(s: Session, sk: SessionKey, config: CoreConfig, c: nat, plan: map<SequenceKey,
                 nat>, channels: Channels,
                 messages: seq<OutboundMessage>, now: nat)
    requires SessionOk(s, config) && CanCommit(s, sk, config, c, plan, channels, messages, now)
    ensures SessionOk(CommitSession(s, plan, channels, messages, now), config)
    ensures Extends(s, CommitSession(s, plan, channels, messages, now))
  {
    SameStructure(s, CommitSession(s, plan, channels, messages, now));
    CommitKeys(s, sk, config, c, plan, channels, messages, now);
    PlanSize(s, plan);
  }
}
