/** What an accepted batch leaves in the session: the sequences it consumed and the values it stored. */
module PublishEffects {
  import opened Model
  import opened Cache
  import opened SessionGraph
  import opened Publishing
  import opened PublishPipeline

  // ------------------------------------------------------------------ the batch

  /** The batch of each verdict, field by field. */
  ghost predicate IsBatchOf(config: CoreConfig, m: OutboundMessage, verdict: Verdict, messages: seq<OutboundMessage>) {
    match verdict
    case Accept => messages == [m]
    case Reject(_) => false
    case Transform(key, payload) =>
      |messages| == 1 && messages[0] == m.(coalesceKey := key, payload := payload)
    case Emit(emissions) =>
      && m.routingPosition.None? && |messages| == |emissions| <= config.maxEmissions
      && forall i | 0 <= i < |emissions| ::
           && messages[i].Session() == m.Session() && messages[i].routingPosition.None?
           && messages[i].space == emissions[i].space && messages[i].epoch == emissions[i].epoch
           && messages[i].entity == emissions[i].entity && messages[i].channel == emissions[i].channel
           && messages[i].sequence == emissions[i].sequence && messages[i].delivery == emissions[i].delivery
           && messages[i].persistence == emissions[i].persistence
           && messages[i].coalesceKey == emissions[i].coalesceKey && messages[i].payload == emissions[i].payload
  }

  /** An authority is asked once, and what it lets through is exactly what its verdict says. */
  lemma AuthorizedBatch(config: CoreConfig, c: nat, m: OutboundMessage, verdict: Verdict)
    ensures Authorize(config, c, m, verdict).Ok?
            <==> && !verdict.Reject?
                 && (verdict.Emit? ==> m.routingPosition.None? && |verdict.emissions| <= config.maxEmissions)
    ensures Authorize(config, c, m, verdict).Ok?
            ==> IsBatchOf(config, m, verdict, Authorize(config, c, m, verdict).value.0)
  {
  }

  // ------------------------------------------------------------------ validation

  /** What a message must satisfy to be published, apart from being new: its channel's policy, the payload limits, the
      keys its class needs, and a current scope. */
  ghost predicate Fit(s: Session, config: CoreConfig, channels: Channels, m: OutboundMessage) {
    && m.space != 0 && m.epoch != 0 && m.channel != 0 && m.entity != Some(0)
    && m.channel in channels && channels[m.channel].delivery == m.delivery
    && channels[m.channel].persistence.SameKind(m.persistence)
    && |m.payload| <= config.maxPayload && |m.payload| <= channels[m.channel].maxPayload
    && (m.routingPosition.Some? ==> m.delivery.IsReplaceable()) && (m.delivery.IsReplaceable() ==> m.coalesceKey.Some?)
    && (m.coalesceKey.Some? ==> m.coalesceKey.value.channel == m.channel && m.coalesceKey.value.entity == m.entity)
    && m.space in s.spaces && s.spaces[m.space].epoch == m.epoch
    && (m.entity.Some? ==>
          && m.entity.value in s.entities && s.entities[m.entity.value].space == m.space
          && s.entities[m.entity.value].epoch == m.epoch)
  }

  /** A message is valid exactly when it is fit and its sequence exceeds those stored and planned for its key. */
  lemma ValidExactly(s: Session, sk: SessionKey, config: CoreConfig, channels: Channels, c: nat, m: OutboundMessage,
                     planned: map<SequenceKey, nat>)
    ensures ValidateMessage(s, sk, config, channels, c, m, planned).None?
            <==> Fit(s, config, channels, m)
                 && (SequenceKeyOf(c, m) in s.sequences ==> s.sequences[SequenceKeyOf(c, m)] < m.sequence)
                 && (SequenceKeyOf(c, m) in planned ==> planned[SequenceKeyOf(c, m)] < m.sequence)
  {
  }

  // ------------------------------------------------------------------ sequences

  /** Every message of the batch is on record under its key, and nothing else is. */
  ghost predicate Recorded(before: map<SequenceKey, nat>, c: nat, messages: seq<OutboundMessage>,
                           start: map<SequenceKey, nat>,
                           after: map<SequenceKey, nat>) {
    && (forall i | 0 <= i < |messages| ::
          SequenceKeyOf(c, messages[i]) in after && messages[i].sequence <= after[SequenceKeyOf(c, messages[i])])
    && (forall k | k in start :: k in after && start[k] <= after[k])
    && (forall k | k !in start && !HasKeyOf(c, messages, k) ::
          (k in after <==> k in before) && (k in before ==> after[k] == before[k]))
  }

  lemma {:induction false} PlanRaises(s: Session, sk: SessionKey, config: CoreConfig, channels: Channels, c: nat,
                                      messages: seq<OutboundMessage>, start: map<SequenceKey, nat>)
    requires PlanSequences(s, sk, config, channels, c, messages, start).Ok?
    ensures var plan := PlanSequences(s, sk, config, channels, c, messages, start).value;
            && (forall k | k in start :: k in plan && start[k] <= plan[k])
            && (forall i | 0 <= i < |messages| ::
                  SequenceKeyOf(c, messages[i]) in plan && messages[i].sequence <= plan[SequenceKeyOf(c, messages[i])])
  {
    if messages != [] {
      var n := |messages| - 1;
      PlanRaises(s, sk, config, channels, c, messages[..n], start);
      var plan := PlanSequences(s, sk, config, channels, c, messages[..n], start).value;
      ValidExactly(s, sk, config, channels, c, messages[n], plan);
      forall i | 0 <= i < n
        ensures SequenceKeyOf(c, messages[i]) in plan && messages[i].sequence <= plan[SequenceKeyOf(c, messages[i])] {
        assert messages[..n][i] == messages[i];
      }
    }
  }

  /** The `i`-th message of the batch is fit, and newer than what is stored, consumed or earlier in the batch for its
      key. */
  ghost predicate Newest(s: Session, config: CoreConfig, channels: Channels, c: nat, messages: seq<OutboundMessage>,
                         start: map<SequenceKey, nat>, i: nat) {
    && i < |messages| && Fit(s, config, channels, messages[i])
    && var k := SequenceKeyOf(c, messages[i]);
       && (k in s.sequences ==> s.sequences[k] < messages[i].sequence)
       && (k in start ==> start[k] < messages[i].sequence)
       && forall j | 0 <= j < i && SequenceKeyOf(c, messages[j]) == k :: messages[j].sequence < messages[i].sequence
  }

  /** A batch is planned exactly when each of its messages is fit and newest. */
  lemma {:induction false} PlansExactly(s: Session, sk: SessionKey, config: CoreConfig, channels: Channels, c: nat,
                                        messages: seq<OutboundMessage>, start: map<SequenceKey, nat>)
    ensures PlanSequences(s, sk, config, channels, c, messages, start).Ok?
            <==> forall i | 0 <= i < |messages| :: Newest(s, config, channels, c, messages, start, i)
  {
    if messages != [] {
      var n := |messages| - 1;
      PlansExactly(s, sk, config, channels, c, messages[..n], start);
      forall i | 0 <= i < n
        ensures Newest(s, config, channels, c, messages, start, i)
                <==> Newest(s, config, channels, c, messages[..n], start, i) {
        NewestBefore(s, config, channels, c, messages, start, i);
      }
      if PlanSequences(s, sk, config, channels, c, messages[..n], start).Ok? {
        PlansLast(s, sk, config, channels, c, messages, start);
      }
    }
  }

  lemma NewestBefore(s: Session, config: CoreConfig, channels: Channels, c: nat, messages: seq<OutboundMessage>,
                     start: map<SequenceKey, nat>, i: nat)
    requires i < |messages| - 1
    ensures Newest(s, config, channels, c, messages, start, i)
            <==> Newest(s, config, channels, c, messages[..|messages| - 1], start, i)
  {
    var init := messages[..|messages| - 1];
    assert forall j | 0 <= j <= i :: init[j] == messages[j];
  }

  lemma PlansLast(s: Session, sk: SessionKey, config: CoreConfig, channels: Channels, c: nat,
                  messages: seq<OutboundMessage>, start: map<SequenceKey, nat>)
    requires messages != [] && PlanSequences(s, sk, config, channels, c, messages[..|messages| - 1], start).Ok?
    ensures PlanSequences(s, sk, config, channels, c, messages, start).Ok?
            <==> Newest(s, config, channels, c, messages, start, |messages| - 1)
  {
    var n := |messages| - 1;
    var init := messages[..n];
    var plan := PlanSequences(s, sk, config, channels, c, init, start).value;
    var k := SequenceKeyOf(c, messages[n]);
    ValidExactly(s, sk, config, channels, c, messages[n], plan);
    PlanRaises(s, sk, config, channels, c, init, start);
    PlanTight(s, sk, config, channels, c, init, start, k);
    assert forall j | 0 <= j < n :: init[j] == messages[j];
  }

  /** What is planned for a key is what was consumed before or the number of some message. */
  lemma {:induction false} PlanTight(s: Session, sk: SessionKey, config: CoreConfig, channels: Channels, c: nat,
                                     messages: seq<OutboundMessage>, start: map<SequenceKey, nat>, k: SequenceKey)
    requires PlanSequences(s, sk, config, channels, c, messages, start).Ok?
    ensures var plan := PlanSequences(s, sk, config, channels, c, messages, start).value;
            k in plan ==> (k in start && plan[k] == start[k])
                          || exists i ::
                             0 <= i < |messages| && SequenceKeyOf(c, messages[i]) == k
                               && messages[i].sequence == plan[k]
  {
    if messages != [] {
      var n := |messages| - 1;
      var plan := PlanSequences(s, sk, config, channels, c, messages[..n], start).value;
      PlanTight(s, sk, config, channels, c, messages[..n], start, k);
      if SequenceKeyOf(c, messages[n]) != k && k in plan && !(k in start && plan[k] == start[k]) {
        var i :| 0 <= i < n && SequenceKeyOf(c, messages[..n][i]) == k && messages[..n][i].sequence == plan[k];
        assert SequenceKeyOf(c, messages[i]) == k && messages[i].sequence == plan[k];
      }
    }
  }

  /** Some message of the batch has the key. */
  ghost predicate HasKeyOf(c: nat, messages: seq<OutboundMessage>, k: SequenceKey) {
    exists i :: 0 <= i < |messages| && SequenceKeyOf(c, messages[i]) == k
  }

  lemma {:induction false} PlanKeys(s: Session, sk: SessionKey, config: CoreConfig, channels: Channels, c: nat,
                                    messages: seq<OutboundMessage>, start: map<SequenceKey, nat>, k: SequenceKey)
    requires PlanSequences(s, sk, config, channels, c, messages, start).Ok?
    requires k in PlanSequences(s, sk, config, channels, c, messages, start).value
    ensures k in start || HasKeyOf(c, messages, k)
  {
    if messages != [] {
      var n := |messages| - 1;
      if SequenceKeyOf(c, messages[n]) != k {
        PlanKeys(s, sk, config, channels, c, messages[..n], start, k);
        if k !in start {
          var i :| 0 <= i < n && SequenceKeyOf(c, messages[..n][i]) == k;
          assert SequenceKeyOf(c, messages[i]) == k;
        }
      }
    }
  }

  /** The plan of a batch, committed, records exactly the batch and what the proposal itself consumed. */
  lemma CommitRecords(s: Session, sk: SessionKey, config: CoreConfig, channels: Channels, c: nat,
                      messages: seq<OutboundMessage>, start: map<SequenceKey, nat>)
    requires PlanSequences(s, sk, config, channels, c, messages, start).Ok?
    ensures var plan := PlanSequences(s, sk, config, channels, c, messages, start).value;
            Recorded(s.sequences, c, messages, start, s.sequences + plan)
  {
    PlanRaises(s, sk, config, channels, c, messages, start);
    forall k | k in PlanSequences(s, sk, config, channels, c, messages, start).value
      ensures k in start || HasKeyOf(c, messages, k) {
      PlanKeys(s, sk, config, channels, c, messages, start, k);
    }
  }

  /** What is on record is stale the next time. */
  lemma RecordedIsStale(s: Session, sk: SessionKey, config: CoreConfig, channels: Channels, c: nat, m: OutboundMessage)
    requires SequenceKeyOf(c, m) in s.sequences && m.sequence <= s.sequences[SequenceKeyOf(c, m)]
    ensures ValidateMessage(s, sk, config, channels, c, m, map[]).Some?
  {
    ValidExactly(s, sk, config, channels, c, m, map[]);
  }

  // ------------------------------------------------------------------ values

  ghost predicate LastFor(messages: seq<OutboundMessage>, i: nat) {
    && i < |messages| && messages[i].persistence.Stateful?
    && forall j | i < j < |messages| && messages[j].persistence.Stateful? ::
       StateKeyOf(messages[j]) != StateKeyOf(messages[i])
  }

  ghost predicate Untouched(messages: seq<OutboundMessage>, k: CacheKey) {
    forall i | 0 <= i < |messages| && messages[i].persistence.Stateful? :: StateKeyOf(messages[i]) != k
  }

  /** Sequence and payload of the message, stored at this instant, for as long as its channel says. */
  ghost predicate IsValueOf(channels: Channels, m: OutboundMessage, now: nat, e: StoredEntry) {
    && e.entry == CacheEntry(m.sequence, m.payload) && e.lastTouched == now
    && (m.channel in channels && channels[m.channel].persistence.Stateful? ==>
          e.ttl == channels[m.channel].persistence.ttl)
  }

  /** Under each key the last stateful message of the batch, and every other key as before. */
  ghost predicate Remembered(before: Store, channels: Channels, messages: seq<OutboundMessage>,
                             now: nat, after: Store) {
    && (forall i: nat | LastFor(messages, i) ::
          StateKeyOf(messages[i]) in after && IsValueOf(channels, messages[i], now, after[StateKeyOf(messages[i])]))
    && (forall k | Untouched(messages, k) :: (k in after <==> k in before) && (k in before ==> after[k] == before[k]))
  }

  lemma StoredIsValue(channels: Channels, m: OutboundMessage, now: nat)
    ensures IsValueOf(channels, m, now, StoredOf(channels, m, now))
  {
  }

  lemma LastBefore(messages: seq<OutboundMessage>, i: nat)
    requires i + 1 < |messages| && LastFor(messages, i)
    ensures LastFor(messages[..|messages| - 1], i)
    ensures messages[|messages| - 1].persistence.Stateful?
            ==> StateKeyOf(messages[|messages| - 1]) != StateKeyOf(messages[i])
  {
  }

  lemma {:induction false} PutAllRemembers(store: Store, channels: Channels, messages: seq<OutboundMessage>, now: nat)
    ensures Remembered(store, channels, messages, now, PutAll(store, channels, messages, now))
  {
    if messages != [] {
      var n := |messages| - 1;
      PutAllRemembers(store, channels, messages[..n], now);
      StoredIsValue(channels, messages[n], now);
      forall i: nat | LastFor(messages, i) && i < n ensures LastFor(messages[..n], i)
        ensures messages[n].persistence.Stateful? ==> StateKeyOf(messages[n]) != StateKeyOf(messages[i]) {
        LastBefore(messages, i);
      }
      forall k | Untouched(messages, k) ensures Untouched(messages[..n], k) {}
    }
  }
}
