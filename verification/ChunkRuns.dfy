/** Whole runs of the chunk reader: chunks come in and envelopes are taken out in any order of events. */
module ChunkRuns {
  import opened Model
  import opened Sequences
  import opened Framing
  import opened FrameReaders

  // ------------------------------------------------------------------ what is left of a sequence

  /** The elements at positions that are not `gone`, in order. */
  function Rest<E>(all: seq<E>, gone: set<nat>): seq<E> {
    if all == [] then []
    else
      var n := |all| - 1;
      Rest(all[..n], gone) + (if n in gone then [] else [all[n]])
  }

  lemma {:induction false} RestAppend<E>(all: seq<E>, more: seq<E>, gone: set<nat>)
    requires forall i | i in gone :: i < |all|
    ensures Rest(all + more, gone) == Rest(all, gone) + more
  {
    if more == [] {
      assert all + more == all;
    } else {
      var n := |more| - 1;
      RestAppend(all, more[..n], gone);
      assert (all + more)[..|all| + n] == all + more[..n];
    }
  }

  lemma {:induction false} RestBeyond<E>(all: seq<E>, gone: set<nat>, i: nat)
    requires i >= |all|
    ensures Rest(all, gone + {i}) == Rest(all, gone)
  {
    if all != [] { RestBeyond(all[..|all| - 1], gone, i); }
  }

  lemma {:induction false} RestHolds<E>(all: seq<E>, gone: set<nat>, i: nat)
    requires i < |all| && i !in gone
    ensures all[i] in Rest(all, gone)
  {
    var n := |all| - 1;
    if i < n { RestHolds(all[..n], gone, i); }
  }

  /** `i` is where the `j`-th remaining element stands. */
  ghost predicate StandsAt<E>(all: seq<E>, gone: set<nat>, j: nat, i: nat) {
    && j < |Rest(all, gone)| && i < |all| && i !in gone && all[i] == Rest(all, gone)[j]
    && Rest(all[..i], gone) == Rest(all, gone)[..j]
    && Rest(all, gone + {i}) == Rest(all, gone)[..j] + Rest(all, gone)[j + 1..]
  }

  lemma {:induction false} Place<E>(all: seq<E>, gone: set<nat>, j: nat) returns (i: nat)
    requires j < |Rest(all, gone)|
    ensures StandsAt(all, gone, j, i)
  {
    var n := |all| - 1;
    var init := Rest(all[..n], gone);
    if j == |init| {
      i := n;
      RestBeyond(all[..n], gone, n);
    } else {
      i := Place(all[..n], gone, j);
      assert all[..n][..i] == all[..i];
    }
  }

  // ------------------------------------------------------------------ one event

  /** The stream so far decodes to `all`, of which the positions in `gone` were handed out: the rest is pending
      in stream order, and the buffer is the incomplete end of the stream. */
  ghost predicate Reads<E(!new)>(decode: Bytes -> Option<E>, max: nat, stream: Bytes, all: seq<E>, gone: set<nat>,
                                 buf: Bytes, pending: seq<E>) {
    && Parse(stream, max).error.None? && Parse(stream, max).rest == buf
       && Decodes(decode, Parse(stream, max).frames, all)
    && (forall i | i in gone :: i < |all|) && pending == Rest(all, gone)
  }

  /** The same where the last chunk did not go in: as far as it got, and what stopped it. */
  ghost predicate ReadsUntil<E(!new)>(decode: Bytes -> Option<E>, max: nat, stream: Bytes, all: seq<E>, gone: set<nat>,
                                      pending: seq<E>, error: IngestError) {
    var p := Parse(stream, max);
    && |all| <= |p.frames| && Decodes(decode, p.frames[..|all|], all) && pending == Rest(all, gone)
    && match error
       case BadFrame(e) => |all| == |p.frames| && p.error == Some(e)
       case PendingQueueFull => |all| < |p.frames| && |pending| >= MAX_PENDING
       case Undecodable => |all| < |p.frames| && decode(p.frames[|all|]).None?
  }

  lemma FeedReads<E(!new)>(decode: Bytes -> Option<E>, max: nat, stream: Bytes, all: seq<E>, gone: set<nat>,
                           buf: Bytes, pending: seq<E>,
                           chunk: Bytes, buf': Bytes, pending': seq<E>, error: Option<IngestError>, done: nat)
    returns (all': seq<E>)
    requires Reads(decode, max, stream, all, gone, buf, pending)
    requires Ingests(decode, max, buf, pending, chunk, buf', pending', error, done)
    ensures error.None? ==> Reads(decode, max, stream + chunk, all', gone, buf', pending')
    ensures error.Some? ==> ReadsUntil(decode, max, stream + chunk, all', gone, pending', error.value)
    ensures |all| <= |all'| && all'[..|all|] == all
  {
    var p, q := Parse(stream, max), Parse(buf + chunk, max);
    var more := pending'[|pending|..];
    all' := all + more;
    ParseAppend(stream, chunk, max);
    var whole := Parse(stream + chunk, max);
    assert whole.frames == p.frames + q.frames;
    DecodesConcatenate(decode, p.frames, all, q.frames[..done], more);
    assert whole.frames[..|all'|] == p.frames + q.frames[..done];
    RestAppend(all, more, gone);
    assert pending' == pending + more;
    if error.None? { assert whole.frames[..|all'|] == whole.frames; }
  }

  /** A take hands out the earliest envelope of the stream that matches and was not handed out yet. */
  ghost predicate Earliest<E(!new)>(all: seq<E>, gone: set<nat>, matches: E -> bool, i: nat) {
    i < |all| && i !in gone && matches(all[i]) && forall j | 0 <= j < i && j !in gone :: !matches(all[j])
  }

  lemma TakeReads<E(!new)>(decode: Bytes -> Option<E>, max: nat, stream: Bytes, all: seq<E>, gone: set<nat>,
                           buf: Bytes, pending: seq<E>,
                           matches: E -> bool, got: E, pending': seq<E>) returns (i: nat)
    requires Reads(decode, max, stream, all, gone, buf, pending) && TakesFirst(pending, matches, Some(got), pending')
    ensures Earliest(all, gone, matches, i) && all[i] == got
    ensures Reads(decode, max, stream, all, gone + {i}, buf, pending')
  {
    var at :| 0 <= at < |pending| && pending[at] == got && matches(got)
      && (forall j | 0 <= j < at :: !matches(pending[j]))
              && pending' == pending[..at] + pending[at + 1..];
    i := Place(all, gone, at);
    forall j | 0 <= j < i && j !in gone ensures !matches(all[j]) {
      RestHolds(all[..i], gone, j);
    }
  }

  // ------------------------------------------------------------------ runs

  datatype Event<!E> = Fed(chunk: Bytes, error: Option<IngestError>) | Took(matches: E -> bool, got: E)

  datatype Reader<E> = Reader(buf: Bytes, pending: seq<E>)

  ghost predicate Step<E(!new)>(decode: Bytes -> Option<E>, max: nat, r: Reader<E>, e: Event<E>, r': Reader<E>) {
    match e
    case Fed(chunk, error) => exists done ::
      Ingests(decode, max, r.buf, r.pending, chunk, r'.buf, r'.pending, error, done)
    case Took(matches, got) => r'.buf == r.buf && TakesFirst(r.pending, matches, Some(got), r'.pending)
  }

  /** A run from the empty reader. Nothing happens after a chunk that did not go in. */
  ghost predicate ReaderRun<E(!new)>(decode: Bytes -> Option<E>, max: nat, rs: seq<Reader<E>>, es: seq<Event<E>>) {
    && |rs| == |es| + 1 && rs[0] == Reader([], [])
    && (forall n | 0 <= n < |es| :: Step(decode, max, rs[n], es[n], rs[n + 1]))
    && (forall n | 0 <= n < |es| - 1 :: es[n].Fed? ==> es[n].error.None?)
  }

  ghost predicate Ok<E(!new)>(es: seq<Event<E>>) {
    es != [] && es[|es| - 1].Fed? ==> es[|es| - 1].error.None?
  }

  function Stream<E>(es: seq<Event<E>>): Bytes {
    if es == [] then []
    else
      var n := |es| - 1;
      Stream(es[..n]) + (if es[n].Fed? then es[n].chunk else [])
  }

  function Handed<E>(es: seq<Event<E>>): seq<E> {
    if es == [] then []
    else
      var n := |es| - 1;
      Handed(es[..n]) + (if es[n].Took? then [es[n].got] else [])
  }

  /** The envelopes handed out stand at the given positions of the stream, each at its own. */
  ghost predicate HandedFrom<E(!new)>(all: seq<E>, places: seq<nat>, handed: seq<E>) {
    && Distinct(places) && |places| == |handed|
    && forall k | 0 <= k < |places| :: places[k] < |all| && all[places[k]] == handed[k]
  }

  function Places(places: seq<nat>): set<nat> { set i | i in places }

  lemma RunInit<E(!new)>(decode: Bytes -> Option<E>, max: nat, rs: seq<Reader<E>>, es: seq<Event<E>>)
    requires ReaderRun(decode, max, rs, es) && es != []
    ensures var n := |es| - 1;
            && ReaderRun(decode, max, rs[..n + 1], es[..n]) && Ok(es[..n])
            && Step(decode, max, rs[n], es[n], rs[n + 1])
  {
    var n := |es| - 1;
    forall i | 0 <= i < n ensures Step(decode, max, rs[..n + 1][i], es[..n][i], rs[..n + 1][i + 1]) {
      assert Step(decode, max, rs[i], es[i], rs[i + 1]);
    }
    assert Step(decode, max, rs[n], es[n], rs[n + 1]);
  }

  lemma HandedMore<E(!new)>(all: seq<E>, all': seq<E>, places: seq<nat>, handed: seq<E>)
    requires HandedFrom(all, places, handed) && |all| <= |all'| && all'[..|all|] == all
    ensures HandedFrom(all', places, handed)
  {
    assert forall i | 0 <= i < |all| :: all'[i] == all'[..|all|][i];
  }

  lemma HandedNext<E(!new)>(all: seq<E>, places: seq<nat>, handed: seq<E>, i: nat)
    requires HandedFrom(all, places, handed) && i < |all| && i !in Places(places)
    ensures HandedFrom(all, places + [i], handed + [all[i]]) && Places(places + [i]) == Places(places) + {i}
  {
  }

  /** However the stream was cut into chunks and whatever was taken out between them, by whatever matchers:
      the reader has decoded the frames of the whole stream, every envelope handed out is one of them and none
      twice, and the others are pending in stream order. */
  lemma {:induction false} RunReads<E(!new)>(decode: Bytes -> Option<E>, max: nat,
                                             rs: seq<Reader<E>>, es: seq<Event<E>>)
    returns (all: seq<E>, places: seq<nat>)
    requires ReaderRun(decode, max, rs, es)
    ensures HandedFrom(all, places, Handed(es))
    ensures var r := rs[|es|];
            if Ok(es) then Reads(decode, max, Stream(es), all, Places(places), r.buf, r.pending)
            else ReadsUntil(decode, max, Stream(es), all, Places(places), r.pending, es[|es| - 1].error.value)
    decreases |es|
  {
    all, places := [], [];
    if es != [] {
      var n := |es| - 1;
      RunInit(decode, max, rs, es);
      all, places := RunReads(decode, max, rs[..n + 1], es[..n]);
      all, places := ReadNext(decode, max, Stream(es[..n]), all, places, Handed(es[..n]), rs[n], es[n], rs[n + 1]);
    }
  }

  lemma ReadNext<E(!new)>(decode: Bytes -> Option<E>, max: nat, stream: Bytes, all: seq<E>,
                          places: seq<nat>, handed: seq<E>,
                          r: Reader<E>, e: Event<E>, r': Reader<E>)
    returns (all': seq<E>, places': seq<nat>)
    requires Reads(decode, max, stream, all, Places(places), r.buf, r.pending) && HandedFrom(all, places, handed)
    requires Step(decode, max, r, e, r')
    ensures HandedFrom(all', places', handed + (if e.Took? then [e.got] else []))
    ensures var stream' := stream + (if e.Fed? then e.chunk else []);
            if e.Fed? && e.error.Some?
               then ReadsUntil(decode, max, stream', all', Places(places'), r'.pending, e.error.value)
            else Reads(decode, max, stream', all', Places(places'), r'.buf, r'.pending)
  {
    all', places' := all, places;
    assert handed + [] == handed && stream + [] == stream;
    match e
    case Fed(chunk, error) =>
      var done :| Ingests(decode, max, r.buf, r.pending, chunk, r'.buf, r'.pending, error, done);
      all' := FeedReads(decode, max, stream, all, Places(places), r.buf, r.pending, chunk, r'.buf,
                        r'.pending, error, done);
      HandedMore(all, all', places, handed);
    case Took(matches, got) =>
      var i := TakeReads(decode, max, stream, all, Places(places), r.buf, r.pending, matches, got, r'.pending);
      HandedNext(all, places, handed, i);
      places' := places + [i];
  }

  // ------------------------------------------------------------------ takes that accept anything

  ghost predicate Unselective<E(!new)>(es: seq<Event<E>>) {
    forall n | 0 <= n < |es| && es[n].Took? :: forall e :: es[n].matches(e)
  }

  /** Takes that accept anything hand the envelopes out in stream order: handed out and pending together are
      the decoded stream. */
  lemma {:induction false} InOrder<E(!new)>(decode: Bytes -> Option<E>, max: nat, rs: seq<Reader<E>>, es: seq<Event<E>>)
    requires ReaderRun(decode, max, rs, es) && Ok(es) && Unselective(es)
    ensures Decodes(decode, Parse(Stream(es), max).frames, Handed(es) + rs[|es|].pending)
    ensures Parse(Stream(es), max).error.None? && Parse(Stream(es), max).rest == rs[|es|].buf
    decreases |es|
  {
    if es != [] {
      var n := |es| - 1;
      RunInit(decode, max, rs, es);
      InOrder(decode, max, rs[..n + 1], es[..n]);
      InOrderNext(decode, max, Stream(es[..n]), Handed(es[..n]), rs[n], es[n], rs[n + 1]);
    }
  }

  lemma FedInOrder<E(!new)>(decode: Bytes -> Option<E>, max: nat, stream: Bytes, handed: seq<E>,
                            buf: Bytes, pending: seq<E>,
                            chunk: Bytes, buf': Bytes, pending': seq<E>, done: nat)
    requires Decodes(decode, Parse(stream, max).frames, handed + pending)
    requires Parse(stream, max).error.None? && Parse(stream, max).rest == buf
    requires Ingests(decode, max, buf, pending, chunk, buf', pending', None, done)
    ensures var p := Parse(stream + chunk, max);
            p.error.None? && p.rest == buf' && Decodes(decode, p.frames, handed + pending')
  {
    var q, more := Parse(buf + chunk, max), pending'[|pending|..];
    ParseAppend(stream, chunk, max);
    assert q.frames[..done] == q.frames;
    DecodesConcatenate(decode, Parse(stream, max).frames, handed + pending, q.frames, more);
    assert handed + pending + more == handed + pending';
  }

  lemma TookFirst<E(!new)>(pending: seq<E>, matches: E -> bool, got: E, pending': seq<E>)
    requires TakesFirst(pending, matches, Some(got), pending') && forall e :: matches(e)
    ensures [got] + pending' == pending
  {
    var i :| 0 <= i < |pending| && pending[i] == got && matches(got) && (forall j | 0 <= j < i :: !matches(pending[j]))
             && pending' == pending[..i] + pending[i + 1..];
    assert matches(pending[0]) && i == 0;
  }

  lemma InOrderNext<E(!new)>(decode: Bytes -> Option<E>, max: nat, stream: Bytes, handed: seq<E>, r: Reader<E>,
                             e: Event<E>, r': Reader<E>)
    requires Decodes(decode, Parse(stream, max).frames, handed + r.pending)
    requires Parse(stream, max).error.None? && Parse(stream, max).rest == r.buf
    requires Step(decode, max, r, e, r') && (if e.Fed? then e.error.None? else forall x :: e.matches(x))
    ensures var p := Parse(stream + (if e.Fed? then e.chunk else []), max);
            && p.error.None? && p.rest == r'.buf
            && Decodes(decode, p.frames, handed + (if e.Took? then [e.got] else []) + r'.pending)
  {
    assert handed + [] == handed && stream + [] == stream;
    match e
    case Fed(chunk, error) =>
      var done: nat :| Ingests(decode, max, r.buf, r.pending, chunk, r'.buf, r'.pending, error, done);
      FedInOrder(decode, max, stream, handed, r.buf, r.pending, chunk, r'.buf, r'.pending, done);
    case Took(matches, got) =>
      TookFirst(r.pending, matches, got, r'.pending);
      assert handed + [got] + r'.pending == handed + r.pending;
  }
}
