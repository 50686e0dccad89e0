/** The bounded outbound queue of one connection. `Lanes` is the plain view: three sequences of
    messages. `OutboundQueue` keeps the replaceable lane as an order deque beside a keyed map and
    is proved to behave as the plain view. */
module Queue {
  import opened Model
  import opened Sequences

  datatype Config = Config(total: nat, critical: nat, latest: nat, bestEffort: nat)
  {
    function Validate(): Option<ConfigError> {
      if total == 0 then Some(ZeroTotalCapacity)
      else if critical == 0 then Some(ZeroCriticalCapacity)
      else if critical > total || latest > total || bestEffort > total then Some(ClassCapacityExceedsTotal)
      else None
    }
  }

  datatype ConfigError = ZeroTotalCapacity | ZeroCriticalCapacity | ClassCapacityExceedsTotal

  datatype QueueError = MissingCoalesceKey

  datatype Eviction = LatestEviction(key: ScopedKey) | BestEffortEviction

  datatype Push =
    | Queued
    | QueuedCriticalAfterEviction(eviction: Eviction)
    | ReplacedLatest
    | EvictedLatest(key: ScopedKey)
    | EvictedBestEffortForLatest
    | DroppedLatest
    | DroppedBestEffort
    | CriticalCapacityExhausted

  predicate HasKey(m: OutboundMessage) { m.coalesceKey.Some? }

  function KeyOf(m: OutboundMessage): ScopedKey
    requires HasKey(m)
  {
    m.ScopedCoalesceKey().value
  }

  /** Selects the messages that do not carry `key`. */
  function Without(key: ScopedKey): OutboundMessage -> bool {
    (m: OutboundMessage) => m.ScopedCoalesceKey() != Some(key)
  }

  ghost predicate DistinctKeys(s: seq<OutboundMessage>) {
    forall i, j | 0 <= i < j < |s| :: s[i].ScopedCoalesceKey() != s[j].ScopedCoalesceKey()
  }

  ghost predicate KeyedLane(s: seq<OutboundMessage>) {
    && (forall m | m in s :: m.delivery.IsReplaceable() && HasKey(m))
    && DistinctKeys(s)
  }

  /** The plain view of a queue: what is held, lane by lane, oldest first. */
  datatype Lanes = Lanes(
    critical: seq<OutboundMessage>,
    latest: seq<OutboundMessage>,
    bestEffort: seq<OutboundMessage>,
    exhausted: bool)
  {
    function Size(): nat { |critical| + |latest| + |bestEffort| }

    ghost predicate Holds(m: OutboundMessage) { m in critical || m in latest || m in bestEffort }

    predicate HoldsKey(key: ScopedKey) { exists i | 0 <= i < |latest| :: latest[i].ScopedCoalesceKey() == Some(key) }

    /** Messages sit in the lane of their class, keys are distinct and all four capacities hold. */
    ghost predicate Bounded(config: Config) {
      && config.Validate().None?
      && (forall m | m in critical :: m.delivery.IsCritical())
      && KeyedLane(latest)
      && (forall m | m in bestEffort :: m.delivery.BestEffortEvent?)
      && |critical| <= config.critical
      && |latest| <= config.latest
      && |bestEffort| <= config.bestEffort
      && Size() <= config.total
    }

    function PushCritical(config: Config, m: OutboundMessage): (Lanes, Push) {
      if |critical| == config.critical then (this.(exhausted := true), CriticalCapacityExhausted)
      else if Size() != config.total then (this.(critical := critical + [m]), Queued)
      else if latest != [] && HasKey(latest[0]) then
        (this.(critical := critical + [m], latest := latest[1..]),
         QueuedCriticalAfterEviction(LatestEviction(KeyOf(latest[0]))))
      else if bestEffort != [] then
        (this.(critical := critical + [m], bestEffort := bestEffort[1..]),
         QueuedCriticalAfterEviction(BestEffortEviction))
      else (this.(critical := critical + [m]), Queued)
    }

    function PushLatest(config: Config, m: OutboundMessage): (Lanes, Push)
      requires HasKey(m)
    {
      if HoldsKey(KeyOf(m)) then
        (this.(latest := Filter(Without(KeyOf(m)), latest) + [m]), ReplacedLatest)
      else if config.latest == 0 then (this, DroppedLatest)
      else if |latest| != config.latest && Size() != config.total then
        (this.(latest := latest + [m]), Queued)
      else if latest != [] && HasKey(latest[0]) then
        (this.(latest := latest[1..] + [m]), EvictedLatest(KeyOf(latest[0])))
      else if bestEffort != [] then
        (this.(latest := latest + [m], bestEffort := bestEffort[1..]), EvictedBestEffortForLatest)
      else (this, DroppedLatest)
    }

    function PushBestEffort(config: Config, m: OutboundMessage): (Lanes, Push) {
      if |bestEffort| == config.bestEffort || Size() == config.total then (this, DroppedBestEffort)
      else (this.(bestEffort := bestEffort + [m]), Queued)
    }

    function Push(config: Config, m: OutboundMessage): (Lanes, Result<Push, QueueError>) {
      if m.delivery.IsCritical() then
        var (l, p) := PushCritical(config, m); (l, Ok(p))
      else if m.delivery.IsReplaceable() then
        if !HasKey(m) then (this, Err(MissingCoalesceKey))
        else var (l, p) := PushLatest(config, m); (l, Ok(p))
      else
        var (l, p) := PushBestEffort(config, m); (l, Ok(p))
    }

    /** Everything held, in the order it leaves. */
    function Contents(): seq<OutboundMessage> { critical + latest + bestEffort }

    function Pop(): (Lanes, Option<OutboundMessage>) {
      if critical != [] then (this.(critical := critical[1..]), Some(critical[0]))
      else if latest != [] then (this.(latest := latest[1..]), Some(latest[0]))
      else if bestEffort != [] then (this.(bestEffort := bestEffort[1..]), Some(bestEffort[0]))
      else (this, None)
    }

    function Keep(p: OutboundMessage -> bool): Lanes {
      Lanes(Filter(p, critical), Filter(p, latest), Filter(p, bestEffort), exhausted)
    }

    function Purge(drop: OutboundMessage -> bool): Lanes { Keep(Not(drop)) }

    /** Stable partition: the eligible messages leave in class order, the rest keep their places. */
    function DrainMatching(eligible: OutboundMessage -> bool): (Lanes, seq<OutboundMessage>) {
      (Keep(Not(eligible)), Keep(eligible).Contents())
    }
  }

  const EMPTY_LANES := Lanes([], [], [], false)

  // ------------------------------------------------------------------ invariants of the plain view

  lemma KeepBounded(l: Lanes, config: Config, p: OutboundMessage -> bool)
    requires l.Bounded(config)
    ensures l.Keep(p).Bounded(config)
    ensures forall m :: l.Keep(p).Holds(m) <==> l.Holds(m) && p(m)
  {
    FilterIsSelection(p, l.critical);
    FilterIsSelection(p, l.latest);
    FilterIsSelection(p, l.bestEffort);
    FilterKeysDistinct(p, l.latest);
  }

  lemma {:induction false} FilterKeysDistinct(p: OutboundMessage -> bool, s: seq<OutboundMessage>)
    requires DistinctKeys(s)
    ensures DistinctKeys(Filter(p, s))
  {
    if s != [] {
      var init, last := s[..|s| - 1], s[|s| - 1];
      FilterKeysDistinct(p, init);
      forall i | 0 <= i < |Filter(p, init)|
        ensures Filter(p, init)[i].ScopedCoalesceKey() != last.ScopedCoalesceKey()
      {
        FilterMembers(p, init, Filter(p, init)[i]);
      }
    }
  }

  /** With distinct keys, dropping one held key removes exactly one message. */
  lemma {:induction false} WithoutHeldKey(s: seq<OutboundMessage>, key: ScopedKey)
    requires DistinctKeys(s)
    requires exists i | 0 <= i < |s| :: s[i].ScopedCoalesceKey() == Some(key)
    ensures |Filter(Without(key), s)| == |s| - 1
  {
    var init, last := s[..|s| - 1], s[|s| - 1];
    if last.ScopedCoalesceKey() == Some(key) {
      FilterAll(Without(key), init);
    } else {
      var i :| 0 <= i < |s| && s[i].ScopedCoalesceKey() == Some(key);
      assert init[i].ScopedCoalesceKey() == Some(key);
      WithoutHeldKey(init, key);
    }
  }

  lemma KeyedAppend(s: seq<OutboundMessage>, m: OutboundMessage)
    requires KeyedLane(s) && m.delivery.IsReplaceable() && HasKey(m)
    requires forall x | x in s :: x.ScopedCoalesceKey() != m.ScopedCoalesceKey()
    ensures KeyedLane(s + [m])
  {
  }

  lemma PushLatestBounded(l: Lanes, config: Config, m: OutboundMessage)
    requires l.Bounded(config) && m.delivery.IsReplaceable() && HasKey(m)
    ensures l.PushLatest(config, m).0.Bounded(config)
  {
    if l.HoldsKey(KeyOf(m)) {
      WithoutHeldKey(l.latest, KeyOf(m));
      KeepBounded(l, config, Without(KeyOf(m)));
      FilterIsSelection(Without(KeyOf(m)), l.latest);
      KeyedAppend(Filter(Without(KeyOf(m)), l.latest), m);
    } else {
      KeyedAppend(l.latest, m);
      if l.latest != [] { KeyedAppend(l.latest[1..], m); }
    }
  }

  /** Every push keeps all four capacities, the classes and the key uniqueness; the queue after a
      push holds nothing but what it held and the pushed message; and a push fails exactly when a
      replaceable message carries no key. */
  lemma PushKeepsBounds(l: Lanes, config: Config, m: OutboundMessage)
    requires l.Bounded(config)
    ensures var (l', r) := l.Push(config, m);
            && l'.Bounded(config)
            && (r.Err? <==> m.delivery.IsReplaceable() && !HasKey(m))
            && (forall x :: l'.Holds(x) ==> l.Holds(x) || x == m)
  {
    if m.delivery.IsReplaceable() && HasKey(m) { PushLatestBounded(l, config, m); }
    PushHolds(l, config, m);
  }

  lemma PushHolds(l: Lanes, config: Config, m: OutboundMessage)
    ensures forall x :: l.Push(config, m).0.Holds(x) ==> l.Holds(x) || x == m
  {
    if m.delivery.IsReplaceable() && HasKey(m) && l.HoldsKey(KeyOf(m)) {
      FilterIsSelection(Without(KeyOf(m)), l.latest);
    }
  }

  // ------------------------------------------------------------------ accounting

  /** What the publisher is told about the queues it pushed to. */
  datatype Activity = Activity(
    queued: nat,
    criticalEvictions: nat,
    replacedLatest: nat,
    evictedLatest: nat,
    droppedLatest: nat,
    droppedBestEffort: nat,
    criticalCapacityExhausted: nat)
  {
    function Record(p: Push): Activity {
      match p
      case Queued => this.(queued := queued + 1)
      case QueuedCriticalAfterEviction(LatestEviction(_)) =>
        this.(queued := queued + 1, criticalEvictions := criticalEvictions + 1, evictedLatest := evictedLatest + 1)
      case QueuedCriticalAfterEviction(BestEffortEviction) =>
        this.(queued := queued + 1, criticalEvictions := criticalEvictions + 1,
              droppedBestEffort := droppedBestEffort + 1)
      case ReplacedLatest => this.(replacedLatest := replacedLatest + 1)
      case EvictedLatest(_) => this.(evictedLatest := evictedLatest + 1)
      case EvictedBestEffortForLatest => this.(droppedBestEffort := droppedBestEffort + 1)
      case DroppedBestEffort => this.(droppedBestEffort := droppedBestEffort + 1)
      case DroppedLatest => this.(droppedLatest := droppedLatest + 1)
      case CriticalCapacityExhausted => this.(criticalCapacityExhausted := criticalCapacityExhausted + 1)
    }
  }

  /** Pushes a batch, recording each accepted result. */
  function PushAll(l: Lanes, config: Config, ms: seq<OutboundMessage>, a: Activity): (Lanes, Activity) {
    if ms == [] then (l, a)
    else
      var (l0, a0) := PushAll(l, config, ms[..|ms| - 1], a);
      var (l', r) := l0.Push(config, ms[|ms| - 1]);
      (l', if r.Ok? then a0.Record(r.value) else a0)
  }

  lemma PushGrowth(l: Lanes, config: Config, m: OutboundMessage, a: Activity)
    requires l.Bounded(config) && l.Push(config, m).1.Ok?
    ensures var (l', r) := l.Push(config, m); var a' := a.Record(r.value);
            l'.Size() + (a'.criticalEvictions - a.criticalEvictions) == l.Size() + (a'.queued - a.queued)
  {
    if m.delivery.IsReplaceable() && l.HoldsKey(KeyOf(m)) {
      WithoutHeldKey(l.latest, KeyOf(m));
    }
  }

  /** Over any batch of pushes the queue grows by exactly the queued count less the critical
      evictions: replacements and every other eviction are neutral. */
  lemma {:induction false} ActivityExplainsGrowth(l: Lanes, config: Config, ms: seq<OutboundMessage>, a: Activity)
    requires l.Bounded(config)
    ensures var (l', a') := PushAll(l, config, ms, a);
            && l'.Bounded(config)
            && l'.Size() + a'.criticalEvictions + a.queued == l.Size() + a'.queued + a.criticalEvictions
  {
    if ms != [] {
      ActivityExplainsGrowth(l, config, ms[..|ms| - 1], a);
      var (l0, a0) := PushAll(l, config, ms[..|ms| - 1], a);
      var m := ms[|ms| - 1];
      PushKeepsBounds(l0, config, m);
      if l0.Push(config, m).1.Ok? { PushGrowth(l0, config, m, a0); }
    }
  }

  // ------------------------------------------------------------------ whole runs

  datatype Op =
    | PushOp(m: OutboundMessage)
    | PopOp
    | PurgeOp(drop: OutboundMessage -> bool)
    | DrainOp(eligible: OutboundMessage -> bool)

  /** A queue with the history an observer sees: every accepted critical message, every replaceable
      push, and everything delivered or purged, each in order. */
  datatype Trace = Trace(
    lanes: Lanes,
    accepted: seq<OutboundMessage>,
    pushedLatest: seq<OutboundMessage>,
    delivered: seq<OutboundMessage>,
    purged: seq<OutboundMessage>)

  function IsCriticalMessage(): OutboundMessage -> bool { (m: OutboundMessage) => m.delivery.IsCritical() }

  function StepTrace(t: Trace, config: Config, op: Op): Trace {
    match op
    case PushOp(m) =>
      var (l', r) := t.lanes.Push(config, m);
      t.(lanes := l',
         accepted := if m.delivery.IsCritical() && r != Ok(CriticalCapacityExhausted)
           then t.accepted + [m] else t.accepted,
         pushedLatest := if m.delivery.IsReplaceable() && HasKey(m) then t.pushedLatest + [m] else t.pushedLatest)
    case PopOp =>
      var (l', r) := t.lanes.Pop();
      t.(lanes := l', delivered := if r.Some? then t.delivered + [r.value] else t.delivered)
    case PurgeOp(drop) =>
      t.(lanes := t.lanes.Purge(drop), purged := t.purged + t.lanes.Keep(drop).Contents())
    case DrainOp(eligible) =>
      var (l', out) := t.lanes.DrainMatching(eligible);
      t.(lanes := l', delivered := t.delivered + out)
  }

  function Run(config: Config, ops: seq<Op>): Trace {
    if ops == [] then Trace(EMPTY_LANES, [], [], [], [])
    else StepTrace(Run(config, ops[..|ops| - 1]), config, ops[|ops| - 1])
  }

  /** A class of messages that no purge touches and every drain takes whole or leaves whole. */
  ghost predicate Spared(ops: seq<Op>, c: OutboundMessage -> bool) {
    forall i | 0 <= i < |ops| ::
      && (ops[i].PurgeOp? ==> forall m | c(m) :: !ops[i].drop(m))
      && (ops[i].DrainOp? ==> (forall m | c(m) :: ops[i].eligible(m)) || (forall m | c(m) :: !ops[i].eligible(m)))
  }

  lemma {:induction false} RunBounded(config: Config, ops: seq<Op>)
    requires config.Validate().None?
    ensures Run(config, ops).lanes.Bounded(config)
  {
    if ops != [] {
      RunBounded(config, ops[..|ops| - 1]);
      var t := Run(config, ops[..|ops| - 1]);
      match ops[|ops| - 1]
      case PushOp(m) => PushKeepsBounds(t.lanes, config, m);
      case PopOp =>
      case PurgeOp(drop) => KeepBounded(t.lanes, config, Not(drop));
      case DrainOp(eligible) => KeepBounded(t.lanes, config, Not(eligible));
    }
  }

  /** What one class of critical messages looks like to an observer: what was delivered followed by
      what is still queued. */
  function Observed(t: Trace, c: OutboundMessage -> bool): seq<OutboundMessage> {
    Filter(c, t.delivered) + Filter(c, t.lanes.critical)
  }

  lemma OutsideCriticalLane(l: Lanes, config: Config, p: OutboundMessage -> bool, c: OutboundMessage -> bool)
    requires l.Bounded(config) && (forall m | c(m) :: m.delivery.IsCritical())
    ensures Filter(c, l.Keep(p).Contents()) == Filter(c, Filter(p, l.critical))
  {
    KeepBounded(l, config, p);
    var k := l.Keep(p);
    assert k.Bounded(config);
    FilterConcat(c, k.critical + k.latest, k.bestEffort);
    FilterConcat(c, k.critical, k.latest);
    FilterNone(c, k.latest);
    FilterNone(c, k.bestEffort);
  }

  lemma ObservedPush(t: Trace, config: Config, m: OutboundMessage, c: OutboundMessage -> bool)
    requires t.lanes.Bounded(config) && (forall m | c(m) :: m.delivery.IsCritical())
    requires Observed(t, c) == Filter(c, t.accepted)
    ensures var t' := StepTrace(t, config, PushOp(m)); Observed(t', c) == Filter(c, t'.accepted)
  {
    var t' := StepTrace(t, config, PushOp(m));
    PushAcceptance(t, config, m);
    if t'.accepted != t.accepted { TailObserved(t.delivered, t.lanes.critical, t.accepted, m, c); }
  }

  lemma TailObserved(d: seq<OutboundMessage>, q: seq<OutboundMessage>, accepted: seq<OutboundMessage>,
                     m: OutboundMessage, c: OutboundMessage -> bool)
    requires Filter(c, d) + Filter(c, q) == Filter(c, accepted)
    ensures Filter(c, d) + Filter(c, q + [m]) == Filter(c, accepted + [m])
  {
    FilterSnoc(c, q, m);
    FilterSnoc(c, accepted, m);
    if c(m) { SnocAssociates(Filter(c, d), Filter(c, q), m); }
  }

  lemma SnocAssociates<T>(a: seq<T>, b: seq<T>, x: T)
    ensures a + (b + [x]) == (a + b) + [x]
  {
  }

  lemma ObservedPop(t: Trace, config: Config, c: OutboundMessage -> bool)
    requires t.lanes.Bounded(config) && (forall m | c(m) :: m.delivery.IsCritical())
    ensures Observed(StepTrace(t, config, PopOp), c) == Observed(t, c)
  {
    var l := t.lanes;
    var (_, r) := l.Pop();
    if r.Some? {
      FilterSnoc(c, t.delivered, r.value);
      if l.critical != [] {
        HeadMoves(t.delivered, l.critical, c);
      }
    }
  }

  lemma HeadMoves(d: seq<OutboundMessage>, s: seq<OutboundMessage>, c: OutboundMessage -> bool)
    requires s != []
    ensures Filter(c, d + [s[0]]) + Filter(c, s[1..]) == Filter(c, d) + Filter(c, s)
  {
    assert s == [s[0]] + s[1..];
    FilterConcat(c, [s[0]], s[1..]);
    FilterConcat(c, d, [s[0]]);
  }

  lemma ObservedPurge(t: Trace, config: Config, drop: OutboundMessage -> bool, c: OutboundMessage -> bool)
    requires forall m | c(m) :: !drop(m)
    ensures Observed(StepTrace(t, config, PurgeOp(drop)), c) == Observed(t, c)
  {
    FilterFilter(c, Not(drop), t.lanes.critical);
    FilterAgree(Both(c, Not(drop)), c, t.lanes.critical);
  }

  lemma ObservedDrain(t: Trace, config: Config, eligible: OutboundMessage -> bool, c: OutboundMessage -> bool)
    requires t.lanes.Bounded(config) && (forall m | c(m) :: m.delivery.IsCritical())
    requires (forall m | c(m) :: eligible(m)) || (forall m | c(m) :: !eligible(m))
    ensures Observed(StepTrace(t, config, DrainOp(eligible)), c) == Observed(t, c)
  {
    OutsideCriticalLane(t.lanes, config, eligible, c);
    SplitMoves(t.delivered, t.lanes.Keep(eligible).Contents(), t.lanes.critical, eligible, c);
  }

  lemma SplitMoves(d: seq<OutboundMessage>, out: seq<OutboundMessage>, s: seq<OutboundMessage>,
                   p: OutboundMessage -> bool, c: OutboundMessage -> bool)
    requires (forall m | c(m) :: p(m)) || (forall m | c(m) :: !p(m))
    requires Filter(c, out) == Filter(c, Filter(p, s))
    ensures Filter(c, d + out) + Filter(c, Filter(Not(p), s)) == Filter(c, d) + Filter(c, s)
  {
    FilterConcat(c, d, out);
    SplitWhole(s, p, c);
    assert (Filter(c, d) + Filter(c, out)) + Filter(c, Filter(Not(p), s)) == Filter(c,
        d) + (Filter(c, out) + Filter(c, Filter(Not(p), s)));
  }

  /** A class taken whole or left whole is not reordered by a partition. */
  lemma SplitWhole(s: seq<OutboundMessage>, p: OutboundMessage -> bool, c: OutboundMessage -> bool)
    requires (forall m | c(m) :: p(m)) || (forall m | c(m) :: !p(m))
    ensures Filter(c, Filter(p, s)) + Filter(c, Filter(Not(p), s)) == Filter(c, s)
  {
    FilterFilter(c, p, s);
    FilterFilter(c, Not(p), s);
    if forall m | c(m) :: p(m) {
      FilterAgree(Both(c, p), c, s);
      FilterNone(Both(c, Not(p)), s);
    } else {
      FilterNone(Both(c, p), s);
      FilterAgree(Both(c, Not(p)), c, s);
    }
  }

  /** First in, first out over whole runs: for every class of critical messages that no purge
      touches and that every partial drain takes or leaves whole (all messages of one space, say),
      what was delivered followed by what is still queued is exactly what was accepted, in order.
      No accepted critical message is ever evicted, duplicated or reordered. */
  lemma {:induction false} CriticalFifo(config: Config, ops: seq<Op>, c: OutboundMessage -> bool)
    requires config.Validate().None?
    requires forall m | c(m) :: m.delivery.IsCritical()
    requires Spared(ops, c)
    ensures Observed(Run(config, ops), c) == Filter(c, Run(config, ops).accepted)
  {
    if ops == [] {
    } else {
      var init := ops[..|ops| - 1];
      assert Spared(init, c) by {
        forall i | 0 <= i < |init| ensures init[i] == ops[i] {}
      }
      CriticalFifo(config, init, c);
      RunBounded(config, init);
      var t := Run(config, init);
      var op := ops[|ops| - 1];
      assert Run(config, ops) == StepTrace(t, config, op);
      match op
      case PushOp(m) => ObservedPush(t, config, m, c);
      case PopOp => ObservedPop(t, config, c);
      case PurgeOp(drop) => ObservedPurge(t, config, drop, c);
      case DrainOp(eligible) => ObservedDrain(t, config, eligible, c);
    }
  }

  ghost predicate Conserved(t: Trace) {
    multiset(t.accepted)
    == multiset(Filter(IsCriticalMessage(), t.delivered)) + multiset(Filter(IsCriticalMessage(), t.purged))
      + multiset(t.lanes.critical)
  }

  lemma ConservedPop(t: Trace, config: Config)
    requires t.lanes.Bounded(config) && Conserved(t)
    ensures Conserved(StepTrace(t, config, PopOp))
  {
    if t.lanes.critical != [] {
      CriticalPopped(t.accepted, t.delivered, t.purged, t.lanes.critical);
    } else {
      OtherPopped(t, config);
    }
  }

  lemma OtherPopped(t: Trace, config: Config)
    requires t.lanes.Bounded(config) && t.lanes.critical == []
    ensures var t' := StepTrace(t, config, PopOp);
            && Filter(IsCriticalMessage(), t'.delivered) == Filter(IsCriticalMessage(), t.delivered)
            && t'.purged == t.purged && t'.accepted == t.accepted && t'.lanes.critical == []
  {
    var (_, r) := t.lanes.Pop();
    if r.Some? { FilterSnoc(IsCriticalMessage(), t.delivered, r.value); }
  }

  lemma CriticalPopped(accepted: seq<OutboundMessage>, d: seq<OutboundMessage>, p: seq<OutboundMessage>,
                       q: seq<OutboundMessage>)
    requires q != [] && q[0].delivery.IsCritical()
    requires multiset(accepted) == multiset(Filter(IsCriticalMessage(), d))
             + multiset(Filter(IsCriticalMessage(), p)) + multiset(q)
    ensures multiset(accepted) == multiset(Filter(IsCriticalMessage(), d + [q[0]]))
            + multiset(Filter(IsCriticalMessage(), p)) + multiset(q[1..])
  {
    HeadShare(q);
    PoppedShare(d, q[0]);
    Balance(multiset(accepted), multiset(Filter(IsCriticalMessage(), d)), multiset(Filter(IsCriticalMessage(), p)),
            multiset(q), multiset{q[0]}, multiset(q[1..]));
  }

  lemma HeadShare(q: seq<OutboundMessage>)
    requires q != []
    ensures multiset(q) == multiset{q[0]} + multiset(q[1..])
  {
    assert q == [q[0]] + q[1..];
  }

  lemma PoppedShare(d: seq<OutboundMessage>, h: OutboundMessage)
    requires h.delivery.IsCritical()
    ensures multiset(Filter(IsCriticalMessage(), d + [h])) == multiset(Filter(IsCriticalMessage(), d)) + multiset{h}
  {
    FilterSnoc(IsCriticalMessage(), d, h);
  }

  lemma ConservedPurge(t: Trace, config: Config, p: OutboundMessage -> bool)
    requires t.lanes.Bounded(config) && Conserved(t)
    ensures Conserved(StepTrace(t, config, PurgeOp(p)))
  {
    ShareMoved(t, config, p);
  }

  lemma ConservedDrain(t: Trace, config: Config, p: OutboundMessage -> bool)
    requires t.lanes.Bounded(config) && Conserved(t)
    ensures Conserved(StepTrace(t, config, DrainOp(p)))
  {
    ShareMoved(t, config, p);
  }

  lemma ShareMoved(t: Trace, config: Config, p: OutboundMessage -> bool)
    requires t.lanes.Bounded(config) && Conserved(t)
    ensures var out, left := t.lanes.Keep(p).Contents(), t.lanes.Keep(Not(p)).critical;
            && multiset(t.accepted) == multiset(Filter(IsCriticalMessage(), t.delivered + out))
                                       + multiset(Filter(IsCriticalMessage(), t.purged)) + multiset(left)
            && multiset(t.accepted) == multiset(Filter(IsCriticalMessage(), t.delivered))
                                       + multiset(Filter(IsCriticalMessage(), t.purged + out)) + multiset(left)
  {
    CriticalShare(t.lanes, config, p);
    CriticalMoved(t.accepted, t.delivered, t.purged, t.lanes.critical, t.lanes.Keep(p).Contents(),
                  t.lanes.Keep(Not(p)).critical);
  }

  /** What leaves the lane goes to the delivered or to the purged messages. */
  lemma CriticalMoved(accepted: seq<OutboundMessage>, d: seq<OutboundMessage>, p: seq<OutboundMessage>,
                      q: seq<OutboundMessage>,
                      out: seq<OutboundMessage>, left: seq<OutboundMessage>)
    requires multiset(accepted) == multiset(Filter(IsCriticalMessage(), d))
             + multiset(Filter(IsCriticalMessage(), p)) + multiset(q)
    requires multiset(q) == multiset(Filter(IsCriticalMessage(), out)) + multiset(left)
    ensures multiset(accepted) == multiset(Filter(IsCriticalMessage(), d + out))
            + multiset(Filter(IsCriticalMessage(), p)) + multiset(left)
    ensures multiset(accepted) == multiset(Filter(IsCriticalMessage(), d))
            + multiset(Filter(IsCriticalMessage(), p + out)) + multiset(left)
  {
    ShareMoves(d, out);
    ShareMoves(p, out);
    Balance(multiset(accepted), multiset(Filter(IsCriticalMessage(), d)), multiset(Filter(IsCriticalMessage(), p)),
            multiset(q), multiset(Filter(IsCriticalMessage(), out)), multiset(left));
  }

  lemma Balance(a: multiset<OutboundMessage>, d: multiset<OutboundMessage>, p: multiset<OutboundMessage>,
                q: multiset<OutboundMessage>, out: multiset<OutboundMessage>, left: multiset<OutboundMessage>)
    requires a == d + p + q && q == out + left
    ensures a == (d + out) + p + left && a == d + (p + out) + left
  {
  }

  lemma ShareMoves(d: seq<OutboundMessage>, out: seq<OutboundMessage>)
    ensures multiset(Filter(IsCriticalMessage(), d + out))
         == multiset(Filter(IsCriticalMessage(), d)) + multiset(Filter(IsCriticalMessage(), out))
  {
    FilterConcat(IsCriticalMessage(), d, out);
  }

  lemma ConservedPush(t: Trace, config: Config, m: OutboundMessage)
    requires Conserved(t)
    ensures Conserved(StepTrace(t, config, PushOp(m)))
  {
    var t' := StepTrace(t, config, PushOp(m));
    PushAcceptance(t, config, m);
    if t'.accepted != t.accepted {
      assert multiset(t'.accepted) == multiset(t.accepted) + multiset{m};
      assert multiset(t'.lanes.critical) == multiset(t.lanes.critical) + multiset{m};
    }
  }

  lemma PushAcceptance(t: Trace, config: Config, m: OutboundMessage)
    ensures var t' := StepTrace(t, config, PushOp(m));
            && t'.delivered == t.delivered && t'.purged == t.purged
            && ((t'.accepted == t.accepted && t'.lanes.critical == t.lanes.critical)
                || (t'.accepted == t.accepted + [m] && t'.lanes.critical == t.lanes.critical + [m]))
  {
  }

  /** Whatever is purged or partially drained, accepted critical messages are conserved: each is
      delivered, purged on request or still queued, the right number of times. */
  lemma {:induction false} CriticalConserved(config: Config, ops: seq<Op>)
    requires config.Validate().None?
    ensures Conserved(Run(config, ops))
  {
    if ops != [] {
      var init := ops[..|ops| - 1];
      CriticalConserved(config, init);
      RunBounded(config, init);
      var t := Run(config, init);
      match ops[|ops| - 1]
      case PushOp(m) => ConservedPush(t, config, m);
      case PopOp => ConservedPop(t, config);
      case PurgeOp(drop) => ConservedPurge(t, config, drop);
      case DrainOp(eligible) => ConservedDrain(t, config, eligible);
    }
  }

  lemma CriticalShare(l: Lanes, config: Config, p: OutboundMessage -> bool)
    requires l.Bounded(config)
    ensures multiset(l.critical)
         == multiset(Filter(IsCriticalMessage(), l.Keep(p).Contents())) + multiset(l.Keep(Not(p)).critical)
  {
    OutsideCriticalLane(l, config, p, IsCriticalMessage());
    FilterIsSelection(p, l.critical);
    FilterAll(IsCriticalMessage(), Filter(p, l.critical));
    FilterMultiset(p, l.critical);
  }

  /** The most recent element carrying `key`, if any. */
  function LastWithKey(s: seq<OutboundMessage>, key: ScopedKey): Option<OutboundMessage> {
    if s == [] then None
    else if s[|s| - 1].ScopedCoalesceKey() == Some(key) then Some(s[|s| - 1])
    else LastWithKey(s[..|s| - 1], key)
  }

  /** Coalescing over whole runs: whatever is queued for a key is the last message pushed for it. */
  lemma {:induction false} LatestHoldsLastPush(config: Config, ops: seq<Op>, i: nat)
    requires config.Validate().None?
    requires i < |Run(config, ops).lanes.latest|
    ensures var t := Run(config, ops);
            && HasKey(t.lanes.latest[i])
            && LastWithKey(t.pushedLatest, KeyOf(t.lanes.latest[i])) == Some(t.lanes.latest[i])
  {
    RunBounded(config, ops);
    var t' := Run(config, ops);
    var x := t'.lanes.latest[i];
    var init := ops[..|ops| - 1];
    var t := Run(config, init);
    RunBounded(config, init);
    if x in t.lanes.latest && (ops[|ops| - 1].PushOp?
                               ==> ops[|ops| - 1].m.ScopedCoalesceKey() != x.ScopedCoalesceKey()
                                   || !ops[|ops| - 1].m.delivery.IsReplaceable()) {
      var j :| 0 <= j < |t.lanes.latest| && t.lanes.latest[j] == x;
      LatestHoldsLastPush(config, init, j);
      if t'.pushedLatest != t.pushedLatest {
        assert t'.pushedLatest[..|t.pushedLatest|] == t.pushedLatest;
      }
    } else {
      LatestNewcomer(t, config, ops[|ops| - 1], x);
    }
  }

  /** A message in the lane after a step was there before or is the replaceable push itself. */
  lemma LatestNewcomer(t: Trace, config: Config, op: Op, x: OutboundMessage)
    requires t.lanes.Bounded(config)
    requires x in StepTrace(t, config, op).lanes.latest
    requires x !in t.lanes.latest || (op.PushOp? && op.m.ScopedCoalesceKey() == x.ScopedCoalesceKey()
                                      && op.m.delivery.IsReplaceable())
    ensures op.PushOp? && op.m == x && x.delivery.IsReplaceable() && HasKey(x)
  {
    match op
    case PushOp(m) =>
      if m.delivery.IsReplaceable() && HasKey(m) { FilterMembers(Without(KeyOf(m)), t.lanes.latest, x); }
    case PopOp =>
    case PurgeOp(drop) => FilterMembers(Not(drop), t.lanes.latest, x);
    case DrainOp(eligible) => FilterMembers(Not(eligible), t.lanes.latest, x);
  }
}
