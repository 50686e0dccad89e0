/** The queue as the core holds it: deques and a keyed map updated in place, proved to behave as
    the three plain lanes of `Queue.Lanes`. */
module OutboundQueues {
  import opened Model
  import opened Sequences
  import opened Queue

  ghost predicate AllHeld(order: seq<ScopedKey>, latest: map<ScopedKey, OutboundMessage>) {
    forall i | 0 <= i < |order| :: order[i] in latest
  }

  /** The values of the replaceable lane in order. */
  ghost function Values(order: seq<ScopedKey>, latest: map<ScopedKey, OutboundMessage>): (r: seq<OutboundMessage>)
    requires AllHeld(order, latest)
    ensures |r| == |order|
    ensures forall i | 0 <= i < |order| :: r[i] == latest[order[i]]
  {
    seq(|order|, i requires 0 <= i < |order| && AllHeld(order, latest) => latest[order[i]])
  }

  /** Order deque and map hold the same distinct keys, and each value carries its key. */
  ghost predicate InStep(order: seq<ScopedKey>, latest: map<ScopedKey, OutboundMessage>) {
    && Distinct(order)
    && |order| == |latest|
    && AllHeld(order, latest)
    && forall i | 0 <= i < |order| :: latest[order[i]].ScopedCoalesceKey() == Some(order[i])
  }

  lemma {:induction false} DistinctCount<K>(order: seq<K>, keys: set<K>)
    requires Distinct(order)
    requires forall k :: k in order <==> k in keys
    ensures |order| == |keys|
  {
    if order == [] {
      assert keys == {};
    } else {
      var init, last := order[..|order| - 1], order[|order| - 1];
      assert order == init + [last];
      DistinctCount(init, keys - {last});
    }
  }

  lemma {:induction false} DistinctCovers<K>(order: seq<K>, keys: set<K>, key: K)
    requires Distinct(order) && |order| == |keys| && key in keys
    requires forall i | 0 <= i < |order| :: order[i] in keys
    ensures key in order
  {
    var init, last := order[..|order| - 1], order[|order| - 1];
    assert order == init + [last];
    if key != last {
      DistinctCovers(init, keys - {last}, key);
    }
  }

  lemma InStepCovers(order: seq<ScopedKey>, latest: map<ScopedKey, OutboundMessage>, key: ScopedKey)
    requires InStep(order, latest)
    ensures key in latest <==> key in order
  {
    if key in latest { DistinctCovers(order, latest.Keys, key); }
  }

  lemma InStepTail(order: seq<ScopedKey>, latest: map<ScopedKey, OutboundMessage>)
    requires InStep(order, latest) && order != []
    ensures InStep(order[1..], latest - {order[0]})
    ensures Values(order[1..], latest - {order[0]}) == Values(order, latest)[1..]
  {
    assert (latest - {order[0]}).Keys == latest.Keys - {order[0]};
  }

  lemma InStepSnoc(order: seq<ScopedKey>, latest: map<ScopedKey, OutboundMessage>, key: ScopedKey, m: OutboundMessage)
    requires InStep(order, latest) && key !in latest && m.ScopedCoalesceKey() == Some(key)
    ensures InStep(order + [key], latest[key := m])
    ensures Values(order + [key], latest[key := m]) == Values(order, latest) + [m]
  {
    assert latest[key := m].Keys == latest.Keys + {key};
  }

  /** Dropping values by key from both structures is filtering the plain lane. */
  lemma {:induction false} ValuesFilter(order: seq<ScopedKey>, latest: map<ScopedKey, OutboundMessage>,
                                        latest': map<ScopedKey, OutboundMessage>,
                                        kept: ScopedKey -> bool, p: OutboundMessage -> bool)
    requires AllHeld(order, latest)
    requires forall i | 0 <= i < |order| :: kept(order[i]) == p(latest[order[i]])
    requires forall i | 0 <= i < |order| && kept(order[i]) ::
             order[i] in latest' && latest'[order[i]] == latest[order[i]]
    ensures AllHeld(Filter(kept, order), latest')
    ensures Values(Filter(kept, order), latest') == Filter(p, Values(order, latest))
  {
    if order != [] {
      var init, last := order[..|order| - 1], order[|order| - 1];
      ValuesFilter(init, latest, latest', kept, p);
      assert Values(order, latest) == Values(init, latest) + [latest[last]];
      FilterSnoc(p, Values(init, latest), latest[last]);
    }
  }

  /** Filtering the order deque by the keys a smaller map still holds keeps both in step. */
  lemma InStepFilter(order: seq<ScopedKey>, latest: map<ScopedKey, OutboundMessage>,
                     latest': map<ScopedKey, OutboundMessage>, kept: ScopedKey -> bool, p: OutboundMessage -> bool)
    requires InStep(order, latest)
    requires forall k | k in latest :: kept(k) == p(latest[k])
    requires latest' == map k | k in latest && kept(k) :: latest[k]
    ensures InStep(Filter(kept, order), latest')
    ensures Values(Filter(kept, order), latest') == Filter(p, Values(order, latest))
  {
    ValuesFilter(order, latest, latest', kept, p);
    FilterDistinct(kept, order);
    forall k ensures k in Filter(kept, order) <==> k in latest'.Keys {
      FilterMembers(kept, order, k);
      InStepCovers(order, latest, k);
    }
    DistinctCount(Filter(kept, order), latest'.Keys);
    forall i | 0 <= i < |Filter(kept, order)|
      ensures latest'[Filter(kept, order)[i]].ScopedCoalesceKey() == Some(Filter(kept, order)[i])
    {
      FilterMembers(kept, order, Filter(kept, order)[i]);
    }
  }

  function OtherThan(key: ScopedKey): ScopedKey -> bool { (k: ScopedKey) => k != key }

  function HeldIn(latest: map<ScopedKey, OutboundMessage>): ScopedKey -> bool { (k: ScopedKey) => k in latest }

  lemma InStepReplace(order: seq<ScopedKey>, latest: map<ScopedKey, OutboundMessage>,
                      key: ScopedKey, m: OutboundMessage)
    requires InStep(order, latest) && key in latest && m.ScopedCoalesceKey() == Some(key)
    ensures InStep(Filter(OtherThan(key), order) + [key], latest[key := m])
    ensures Values(Filter(OtherThan(key), order) + [key], latest[key := m]) == Filter(Without(key),
        Values(order, latest)) + [m]
  {
    forall k | k in latest ensures OtherThan(key)(k) == Without(key)(latest[k]) { InStepCovers(order, latest, k); }
    InStepFilter(order, latest, latest - {key}, OtherThan(key), Without(key));
    InStepSnoc(Filter(OtherThan(key), order), latest - {key}, key, m);
    assert (latest - {key})[key := m] == latest[key := m];
  }

  lemma InStepPurge(order: seq<ScopedKey>, latest: map<ScopedKey, OutboundMessage>,
                    latest': map<ScopedKey, OutboundMessage>,
                    drop: OutboundMessage -> bool)
    requires InStep(order, latest)
    requires latest' == map k | k in latest && !drop(latest[k]) :: latest[k]
    ensures InStep(Filter(HeldIn(latest'), order), latest')
    ensures Values(Filter(HeldIn(latest'), order), latest') == Filter(Not(drop), Values(order, latest))
  {
    InStepFilter(order, latest, latest', HeldIn(latest'), Not(drop));
  }

  lemma PurgeBounded(l: Lanes, config: Config, drop: OutboundMessage -> bool)
    requires l.Bounded(config)
    ensures l.Purge(drop).Bounded(config) && l.Purge(drop).Size() <= l.Size()
  {
    KeepBounded(l, config, Not(drop));
  }

  lemma PopBounded(l: Lanes, config: Config)
    requires l.Bounded(config)
    ensures var (l', r) := l.Pop();
            && l'.Bounded(config)
            && (r.None? ==> l.Contents() == [] && l' == l)
            && (r.Some? ==> l.Contents() == [r.value] + l'.Contents() && l'.Size() < l.Size())
            && l'.exhausted == l.exhausted
  {
  }

  lemma RotationTurn<T>(s: seq<T>, i: nat, back: seq<T>)
    requires i < |s|
    ensures (s[i..] + back)[0] == s[i]
    ensures (s[i..] + back)[1..] == s[i + 1..] + back
    ensures (s[i + 1..] + back) + [s[i]] == s[i + 1..] + (back + [s[i]])
  {
  }

  lemma TakeSnoc<T>(s: seq<T>, i: nat)
    requires i < |s|
    ensures s[..i + 1] == s[..i] + [s[i]]
  {
  }

  /** One rotation of a deque: each message is popped from the front and either taken or pushed
      back, so after as many turns as there were messages the deque is back in its old order. */
  method RotateOut(lane: seq<OutboundMessage>, eligible: OutboundMessage -> bool)
    returns (kept: seq<OutboundMessage>, taken: seq<OutboundMessage>)
    ensures kept == Filter(Not(eligible), lane) && taken == Filter(eligible, lane)
  {
    kept, taken := lane, [];
    for i := 0 to |lane|
      invariant kept == lane[i..] + Filter(Not(eligible), lane[..i])
      invariant taken == Filter(eligible, lane[..i])
    {
      RotationTurn(lane, i, Filter(Not(eligible), lane[..i]));
      TakeSnoc(lane, i);
      var m := kept[0];
      FilterSnoc(eligible, lane[..i], m);
      FilterSnoc(Not(eligible), lane[..i], m);
      kept := kept[1..];
      if eligible(m) {
        taken := taken + [m];
      } else {
        kept := kept + [m];
      }
    }
    assert lane[..|lane|] == lane;
  }

  /** The keyed map once the first `n` keys of `order` have been offered to `eligible`. */
  ghost function Remaining(order: seq<ScopedKey>, latest: map<ScopedKey, OutboundMessage>, n: nat,
                           eligible: OutboundMessage -> bool): map<ScopedKey, OutboundMessage>
    requires n <= |order|
  {
    map k | k in latest && (eligible(latest[k]) ==> k !in order[..n]) :: latest[k]
  }

  lemma RemainingStep(order: seq<ScopedKey>, latest: map<ScopedKey, OutboundMessage>, n: nat,
                      eligible: OutboundMessage -> bool)
    requires n < |order| && Distinct(order) && order[n] in latest
    ensures order[n] in Remaining(order, latest, n, eligible)
    ensures Remaining(order, latest, n, eligible)[order[n]] == latest[order[n]]
    ensures Remaining(order, latest, n + 1, eligible)
         == if eligible(latest[order[n]]) then Remaining(order, latest, n, eligible) - {order[n]}
            else Remaining(order, latest, n, eligible)
  {
    assert order[..n + 1] == order[..n] + [order[n]];
    assert order[n] !in order[..n];
  }

  lemma RemainingDone(order: seq<ScopedKey>, latest: map<ScopedKey, OutboundMessage>, eligible: OutboundMessage -> bool)
    requires InStep(order, latest)
    ensures Remaining(order, latest, |order|, eligible) == map k | k in latest && !eligible(latest[k]) :: latest[k]
  {
    assert order[..|order|] == order;
    forall k | k in latest ensures k in order { InStepCovers(order, latest, k); }
  }

  /** Selects the keys whose value stays. */
  function Deferred(latest: map<ScopedKey, OutboundMessage>, eligible: OutboundMessage -> bool): ScopedKey -> bool {
    (k: ScopedKey) => k in latest && !eligible(latest[k])
  }

  /** State of the keyed rotation after `i` turns. */
  ghost predicate Turned(order: seq<ScopedKey>, latest: map<ScopedKey, OutboundMessage>,
                         eligible: OutboundMessage -> bool, i: nat,
                         order': seq<ScopedKey>, latest': map<ScopedKey, OutboundMessage>, taken: seq<OutboundMessage>)
    requires AllHeld(order, latest) && i <= |order|
  {
    && order' == order[i..] + Filter(Deferred(latest, eligible), order[..i])
    && latest' == Remaining(order, latest, i, eligible)
    && taken == Filter(eligible, Values(order, latest)[..i])
  }

  lemma Turn(order: seq<ScopedKey>, latest: map<ScopedKey, OutboundMessage>, eligible: OutboundMessage -> bool, i: nat,
             order': seq<ScopedKey>, latest': map<ScopedKey, OutboundMessage>, taken: seq<OutboundMessage>)
    requires InStep(order, latest) && i < |order|
    requires Turned(order, latest, eligible, i, order', latest', taken)
    ensures |order'| > 0 && order'[0] == order[i] && order[i] in latest' && latest'[order[i]] == latest[order[i]]
    ensures var m := latest[order[i]];
            if eligible(m) then Turned(order, latest, eligible, i + 1, order'[1..], latest' - {order[i]}, taken + [m])
            else Turned(order, latest, eligible, i + 1, order'[1..] + [order[i]], latest', taken)
  {
    var vs := Values(order, latest);
    RotationTurn(order, i, Filter(Deferred(latest, eligible), order[..i]));
    TakeSnoc(order, i);
    TakeSnoc(vs, i);
    RemainingStep(order, latest, i, eligible);
    FilterSnoc(Deferred(latest, eligible), order[..i], order[i]);
    FilterSnoc(eligible, vs[..i], latest[order[i]]);
  }

  lemma TurnedDone(order: seq<ScopedKey>, latest: map<ScopedKey, OutboundMessage>, eligible: OutboundMessage -> bool,
                   order': seq<ScopedKey>, latest': map<ScopedKey, OutboundMessage>, taken: seq<OutboundMessage>)
    requires InStep(order, latest)
    requires Turned(order, latest, eligible, |order|, order', latest', taken)
    ensures InStep(order', latest')
    ensures Values(order', latest') == Filter(Not(eligible), Values(order, latest))
    ensures taken == Filter(eligible, Values(order, latest))
  {
    assert order[..|order|] == order && Values(order, latest)[..|order|] == Values(order, latest);
    assert order' == Filter(Deferred(latest, eligible), order);
    RemainingDone(order, latest, eligible);
    InStepFilter(order, latest, latest', Deferred(latest, eligible), Not(eligible));
  }

  /** The keyed lane rotated the same way: the order deque turns once and taken values leave the map. */
  method RotateOutKeyed(order: seq<ScopedKey>, latest: map<ScopedKey, OutboundMessage>,
                        eligible: OutboundMessage -> bool)
    returns (order': seq<ScopedKey>, latest': map<ScopedKey, OutboundMessage>, taken: seq<OutboundMessage>)
    requires InStep(order, latest)
    ensures InStep(order', latest')
    ensures Values(order', latest') == Filter(Not(eligible), Values(order, latest))
    ensures taken == Filter(eligible, Values(order, latest))
  {
    order', latest', taken := order, latest, [];
    assert Remaining(order, latest, 0, eligible) == latest;
    for i := 0 to |order|
      invariant Turned(order, latest, eligible, i, order', latest', taken)
    {
      Turn(order, latest, eligible, i, order', latest', taken);
      var key := order'[0];
      order' := order'[1..];
      if eligible(latest'[key]) {
        taken := taken + [latest'[key]];
        latest' := latest' - {key};
      } else {
        order' := order' + [key];
      }
    }
    TurnedDone(order, latest, eligible, order', latest', taken);
  }

  class OutboundQueue {
    const config: Config
    var critical: seq<OutboundMessage>
    var latestOrder: seq<ScopedKey>
    var latest: map<ScopedKey, OutboundMessage>
    var bestEffort: seq<OutboundMessage>
    var criticalCapacityExhausted: bool

    ghost predicate Valid()
      reads this
    {
      InStep(latestOrder, latest) && View().Bounded(config)
    }

    ghost function View(): Lanes
      requires InStep(latestOrder, latest)
      reads this
    {
      Lanes(critical, Values(latestOrder, latest), bestEffort, criticalCapacityExhausted)
    }

    constructor (config: Config)
      requires config.Validate().None?
      ensures Valid() && View() == EMPTY_LANES && this.config == config
    {
      this.config := config;
      critical, latestOrder, latest, bestEffort, criticalCapacityExhausted := [], [], map[], [], false;
    }

    method Size() returns (n: nat)
      requires InStep(latestOrder, latest)
      ensures n == View().Size()
    {
      n := |critical| + |latest| + |bestEffort|;
    }

    method EvictOldestLatest() returns (evicted: Option<ScopedKey>)
      requires InStep(latestOrder, latest)
      modifies this`latestOrder, this`latest
      ensures InStep(latestOrder, latest) && latest.Keys <= old(latest.Keys)
      ensures old(View().latest) == [] ==> evicted == None && View() == old(View())
      ensures old(View().latest) != [] ==>
                && evicted == old(View().latest)[0].ScopedCoalesceKey()
                && View() == old(View()).(latest := old(View().latest)[1..])
    {
      if latestOrder == [] {
        return None;
      }
      var key := latestOrder[0];
      InStepTail(latestOrder, latest);
      latestOrder := latestOrder[1..];
      latest := latest - {key};
      return Some(key);
    }

    method InsertLatest(key: ScopedKey, m: OutboundMessage)
      requires InStep(latestOrder, latest) && key !in latest && m.ScopedCoalesceKey() == Some(key)
      modifies this`latestOrder, this`latest
      ensures InStep(latestOrder, latest)
      ensures View() == old(View()).(latest := old(View().latest) + [m])
    {
      InStepSnoc(latestOrder, latest, key, m);
      latestOrder := latestOrder + [key];
      latest := latest[key := m];
    }

    method PushCritical(m: OutboundMessage) returns (r: Push)
      requires Valid() && m.delivery.IsCritical()
      modifies this
      ensures Valid() && (View(), r) == old(View()).PushCritical(config, m)
    {
      PushKeepsBounds(View(), config, m);
      if |critical| == config.critical {
        criticalCapacityExhausted := true;
        return CriticalCapacityExhausted;
      }
      var size := Size();
      r := Queued;
      if size == config.total {
        var evicted := EvictOldestLatest();
        if evicted.Some? {
          r := QueuedCriticalAfterEviction(LatestEviction(evicted.value));
        } else if bestEffort != [] {
          bestEffort := bestEffort[1..];
          r := QueuedCriticalAfterEviction(BestEffortEviction);
        }
      }
      critical := critical + [m];
    }

    method ReplaceLatest(key: ScopedKey, m: OutboundMessage)
      requires InStep(latestOrder, latest) && key in latest && m.ScopedCoalesceKey() == Some(key)
      modifies this`latestOrder, this`latest
      ensures InStep(latestOrder, latest)
      ensures View() == old(View()).(latest := Filter(Without(key), old(View().latest)) + [m])
    {
      InStepReplace(latestOrder, latest, key, m);
      latest := latest[key := m];
      latestOrder := Filter(OtherThan(key), latestOrder);
      latestOrder := latestOrder + [key];
    }

    method PushLatest(m: OutboundMessage) returns (r: Result<Push, QueueError>)
      requires Valid() && m.delivery.IsReplaceable()
      modifies this
      ensures Valid() && (View(), r) == old(View()).Push(config, m)
    {
      PushKeepsBounds(View(), config, m);
      var key := m.ScopedCoalesceKey();
      if key == None {
        return Err(MissingCoalesceKey);
      }
      HeldKeys(key.value);
      if key.value in latest {
        ReplaceLatest(key.value, m);
        return Ok(ReplacedLatest);
      }
      if config.latest == 0 {
        return Ok(DroppedLatest);
      }
      var size := Size();
      if |latest| == config.latest || size == config.total {
        var evicted := EvictOldestLatest();
        if evicted.Some? {
          InsertLatest(key.value, m);
          return Ok(EvictedLatest(evicted.value));
        }
        if bestEffort != [] {
          bestEffort := bestEffort[1..];
          InsertLatest(key.value, m);
          return Ok(EvictedBestEffortForLatest);
        }
        return Ok(DroppedLatest);
      }
      InsertLatest(key.value, m);
      return Ok(Queued);
    }

    lemma HeldKeys(key: ScopedKey)
      requires InStep(latestOrder, latest)
      ensures key in latest <==> View().HoldsKey(key)
    {
      InStepCovers(latestOrder, latest, key);
      if key in latest {
        var i :| 0 <= i < |latestOrder| && latestOrder[i] == key;
        assert View().latest[i].ScopedCoalesceKey() == Some(key);
      }
    }

    method PushBestEffort(m: OutboundMessage) returns (r: Push)
      requires Valid() && m.delivery.BestEffortEvent?
      modifies this`bestEffort
      ensures Valid() && (View(), r) == old(View()).PushBestEffort(config, m)
    {
      PushKeepsBounds(View(), config, m);
      var size := Size();
      if |bestEffort| == config.bestEffort || size == config.total {
        return DroppedBestEffort;
      }
      bestEffort := bestEffort + [m];
      return Queued;
    }

    method Push(m: OutboundMessage) returns (r: Result<Push, QueueError>)
      requires Valid()
      modifies this
      ensures Valid() && (View(), r) == old(View()).Push(config, m)
    {
      if m.delivery.IsCritical() {
        var p := PushCritical(m);
        return Ok(p);
      }
      if m.delivery.IsReplaceable() {
        r := PushLatest(m);
        return;
      }
      var p := PushBestEffort(m);
      return Ok(p);
    }

    method Pop() returns (r: Option<OutboundMessage>)
      requires Valid()
      modifies this
      ensures Valid() && (View(), r) == old(View()).Pop()
    {
      PopBounded(View(), config);
      if critical != [] {
        r := Some(critical[0]);
        critical := critical[1..];
        return;
      }
      if latestOrder != [] {
        r := Some(latest[latestOrder[0]]);
        var _ := EvictOldestLatest();
        return;
      }
      if bestEffort != [] {
        r := Some(bestEffort[0]);
        bestEffort := bestEffort[1..];
        return;
      }
      return None;
    }

    method Purge(drop: OutboundMessage -> bool) returns (discarded: nat)
      requires Valid()
      modifies this
      ensures Valid() && View() == old(View()).Purge(drop)
      ensures discarded == old(View()).Size() - View().Size()
    {
      PurgeBounded(View(), config, drop);
      var before := Size();
      critical := Filter(Not(drop), critical);
      bestEffort := Filter(Not(drop), bestEffort);
      latest := map k | k in latest && !drop(latest[k]) :: latest[k];
      InStepPurge(latestOrder, old(latest), latest, drop);
      latestOrder := Filter(HeldIn(latest), latestOrder);
      var after := Size();
      discarded := before - after;
    }

    method Drain() returns (messages: seq<OutboundMessage>)
      requires Valid()
      modifies this
      ensures Valid() && messages == old(View()).Contents()
      ensures View() == EMPTY_LANES.(exhausted := old(View()).exhausted)
    {
      messages := [];
      while true
        invariant Valid() && messages + View().Contents() == old(View()).Contents()
        invariant View().exhausted == old(View()).exhausted
        decreases View().Size()
      {
        PopBounded(View(), config);
        var m := Pop();
        if m == None {
          break;
        }
        messages := messages + [m.value];
      }
    }

    /** Takes the eligible messages without moving deferred ones out of the bounded queue. */
    method DrainMatching(eligible: OutboundMessage -> bool) returns (messages: seq<OutboundMessage>)
      requires Valid()
      modifies this
      ensures Valid() && (View(), messages) == old(View()).DrainMatching(eligible)
    {
      PurgeBounded(View(), config, eligible);
      var taken;
      critical, messages := RotateOut(critical, eligible);
      latestOrder, latest, taken := RotateOutKeyed(latestOrder, latest, eligible);
      messages := messages + taken;
      bestEffort, taken := RotateOut(bestEffort, eligible);
      messages := messages + taken;
    }
  }

  /** With everything eligible a partial drain is a full drain. */
  lemma DrainMatchingEverything(l: Lanes, eligible: OutboundMessage -> bool)
    requires forall m :: eligible(m)
    ensures l.DrainMatching(eligible) == (EMPTY_LANES.(exhausted := l.exhausted), l.Contents())
  {
    FilterAll(eligible, l.critical);
    FilterAll(eligible, l.latest);
    FilterAll(eligible, l.bestEffort);
    FilterNone(Not(eligible), l.critical);
    FilterNone(Not(eligible), l.latest);
    FilterNone(Not(eligible), l.bestEffort);
  }
}
