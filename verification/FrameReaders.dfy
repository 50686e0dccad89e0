/** The two incremental frame readers: one retains a partial frame across dropped receive calls, the
    other cuts chunks into a bounded list of decoded envelopes. */
module FrameReaders {
  import opened Model
  import opened Framing

  function Least(a: nat, b: nat): nat { if a <= b then a else b }

  /** How much one read delivers: something between one byte and what fits, as the transport pleases. */
  function ReadSize(wish: nat, space: nat, available: nat): (n: nat)
    requires space > 0 && available > 0
    ensures 1 <= n <= space && n <= available
  {
    if wish == 0 then 1 else Least(wish, Least(space, available))
  }

  lemma PartialPrefix(b: Bytes, max: nat)
    requires |b| < PREFIX_LENGTH
    ensures Partial(b, max)
  {
  }

  lemma PartialFrame(b: Bytes, max: nat)
    requires |b| >= PREFIX_LENGTH && FrameLength(b, max).Ok? && |b| < FrameLength(b, max).value
    ensures Partial(b, max)
  {
  }

  lemma WholeFrame(f: Bytes, max: nat)
    requires |f| >= PREFIX_LENGTH && FrameLength(f, max) == Ok(|f|)
    ensures Parse(f, max) == Parsed([f], [], None)
  {
    assert f[|f|..] == [] && f[..|f|] == f;
  }

  /** The state of the receiving half of a client, kept outside the receive call. */
  class StreamReadState {
    const max: nat
    var prefix: array<nat>
    var prefixRead: nat
    var frame: array<nat>
    var frameRead: nat

    ghost predicate Valid()
      reads this, prefix, frame
    {
      && max >= MIN_FRAME && prefix.Length == PREFIX_LENGTH && prefix != frame && prefixRead <= PREFIX_LENGTH
      && (frame.Length == 0 ==> frameRead == 0)
      && (frame.Length > 0 ==>
            && prefixRead == PREFIX_LENGTH && FrameLength(prefix[..], max) == Ok(frame.Length)
            && PREFIX_LENGTH <= frameRead <= frame.Length && frame[..PREFIX_LENGTH] == prefix[..])
    }

    /** The bytes taken off the stream that do not make a frame yet. */
    ghost function Buffered(): Bytes
      requires Valid()
      reads this, prefix, frame
    {
      if frame.Length == 0 then prefix[..prefixRead] else frame[..frameRead]
    }

    constructor (max: nat)
      requires max >= MIN_FRAME
      ensures Valid() && Buffered() == [] && this.max == max && fresh(prefix) && fresh(frame)
    {
      this.max := max;
      prefix, prefixRead := new nat[PREFIX_LENGTH], 0;
      frame, frameRead := new nat[0], 0;
    }

    /** Reads up to four prefix bytes. Every read is committed before the next one may be dropped. */
    method ReadPrefix(input: Bytes, wishes: seq<nat>) returns (taken: nat, used: nat)
      requires Valid() && frame.Length == 0
      modifies this`prefixRead, prefix
      ensures Valid() && frame == old(frame) && prefix == old(prefix)
      ensures taken <= |input| && used <= |wishes|
      ensures Buffered() == old(Buffered()) + input[..taken]
      ensures prefixRead == PREFIX_LENGTH || taken == |input| || used == |wishes|
      ensures old(prefixRead) == PREFIX_LENGTH ==> taken == 0
    {
      taken, used := 0, 0;
      while prefixRead < PREFIX_LENGTH && taken < |input| && used < |wishes|
        invariant Valid() && frame == old(frame) && prefix == old(prefix) && taken <= |input| && used <= |wishes|
        invariant prefix[..prefixRead] == old(prefix[..prefixRead]) + input[..taken]
        invariant old(prefixRead) == PREFIX_LENGTH ==> taken == 0
      {
        var n := ReadSize(wishes[used], PREFIX_LENGTH - prefixRead, |input| - taken);
        Fill(prefix, prefixRead, input[taken..taken + n]);
        assert input[..taken + n] == input[..taken] + input[taken..taken + n];
        prefixRead, taken, used := prefixRead + n, taken + n, used + 1;
      }
    }

    method ReadBody(input: Bytes, wishes: seq<nat>) returns (taken: nat)
      requires Valid() && frame.Length > 0
      modifies this`frameRead, frame
      ensures Valid() && frame == old(frame) && prefix == old(prefix) && prefixRead == old(prefixRead)
      ensures taken <= |input| && Buffered() == old(Buffered()) + input[..taken]
    {
      taken := 0;
      var used := 0;
      while frameRead < frame.Length && taken < |input| && used < |wishes|
        invariant Valid() && frame == old(frame) && prefix == old(prefix) && taken <= |input| && used <= |wishes|
        invariant frame[..frameRead] == old(frame[..frameRead]) + input[..taken]
      {
        var n := ReadSize(wishes[used], frame.Length - frameRead, |input| - taken);
        ghost var kept := frame[..frameRead];
        Fill(frame, frameRead, input[taken..taken + n]);
        assert frame[..PREFIX_LENGTH] == kept[..PREFIX_LENGTH];
        assert input[..taken + n] == input[..taken] + input[taken..taken + n];
        frameRead, taken, used := frameRead + n, taken + n, used + 1;
      }
    }

    /** With the prefix complete, room for exactly one frame is made. */
    method Allocate() returns (e: Option<FrameError>)
      requires Valid() && frame.Length == 0 && prefixRead == PREFIX_LENGTH
      modifies this`frame, this`frameRead
      ensures Valid() && Buffered() == old(Buffered()) && prefix == old(prefix)
      ensures e == match FrameLength(old(Buffered()), max) case Ok(_) => None case Err(x) => Some(x)
      ensures if e.Some? then frame == old(frame) else fresh(frame) && frame.Length > 0
    {
      assert prefix[..] == prefix[..prefixRead];
      var n := FrameLength(prefix[..], max);
      if n.Err? { return Some(n.error); }
      frame := new nat[n.value];
      forall i | 0 <= i < PREFIX_LENGTH { frame[i] := prefix[i]; }
      frameRead := PREFIX_LENGTH;
      return None;
    }

    /** Nothing complete is left lying in the buffer. */
    ghost predicate Waiting()
      requires Valid()
      reads this, prefix, frame
    {
      |Buffered()| <= max && (frame.Length > 0 ==> frameRead < frame.Length)
    }

    /** Reads on in a frame; a complete one is handed over and the state starts afresh. */
    method RecvBody(input: Bytes, wishes: seq<nat>, ended: bool) returns (outcome: Outcome, taken: nat)
      requires Valid() && frame.Length > 0
      modifies this, frame
      ensures Valid() && Waiting() && taken <= |input|
      ensures (prefix == old(prefix) || fresh(prefix)) && (frame == old(frame) || fresh(frame))
      ensures Receives(old(Buffered()), input[..taken], outcome, Buffered(), max) && !outcome.Failed?
    {
      ghost var start := Buffered();
      taken := ReadBody(input, wishes);
      ghost var b := Buffered();
      assert b == start + input[..taken];
      assert b[..PREFIX_LENGTH] == prefix[..];
      PrefixDecides(b[..PREFIX_LENGTH], b[PREFIX_LENGTH..], max);
      assert b == b[..PREFIX_LENGTH] + b[PREFIX_LENGTH..];
      if frameRead < frame.Length {
        PartialFrame(b, max);
        return if ended && taken == |input| then Ended else Pending, taken;
      }
      WholeFrame(b, max);
      assert frame[..] == b;
      outcome := Frame(frame[..]);
      prefix, prefixRead := new nat[PREFIX_LENGTH], 0;
      frame, frameRead := new nat[0], 0;
    }

    /** One receive call, dropped when its reads run out. What it took is never lost and never taken
        twice; a bad prefix is reported again by every later call, without reading on. */
    method Recv(input: Bytes, wishes: seq<nat>, ended: bool) returns (outcome: Outcome, taken: nat)
      requires Valid() && Waiting()
      modifies this, prefix, frame
      ensures Valid() && Waiting() && taken <= |input|
      ensures (prefix == old(prefix) || fresh(prefix)) && (frame == old(frame) || fresh(frame))
      ensures Receives(old(Buffered()), input[..taken], outcome, Buffered(), max)
      ensures |old(Buffered())| == PREFIX_LENGTH && FrameLength(old(Buffered()), max).Err?
              ==> taken == 0 && outcome.Failed?
    {
      if frame.Length > 0 {
        assert Buffered()[..PREFIX_LENGTH] == prefix[..];
        outcome, taken := RecvBody(input, wishes, ended);
        return;
      }
      ghost var start := Buffered();
      var used;
      taken, used := ReadPrefix(input, wishes);
      if prefixRead < PREFIX_LENGTH {
        PartialPrefix(Buffered(), max);
        return if ended && taken == |input| then Ended else Pending, taken;
      }
      ghost var b := Buffered();
      var e := Allocate();
      if e.Some? { return Failed(e.value), taken; }
      var more;
      outcome, more := RecvBody(input[taken..], wishes[used..], ended);
      ReceivesMore(start, input, taken, more, outcome, Buffered(), max);
      taken := taken + more;
    }
  }

  lemma ReceivesMore(start: Bytes, input: Bytes, n: nat, more: nat, outcome: Outcome, buf: Bytes, max: nat)
    requires n + more <= |input| && Receives(start + input[..n], input[n..][..more], outcome, buf, max)
    ensures Receives(start, input[..n + more], outcome, buf, max)
  {
    assert input[..n + more] == input[..n] + input[n..][..more];
    assert (start + input[..n]) + input[n..][..more] == start + input[..n + more];
  }

  method Fill(a: array<nat>, at: nat, bytes: Bytes)
    requires at + |bytes| <= a.Length
    modifies a
    ensures a[..at] == old(a[..at]) && a[..at + |bytes|] == old(a[..at]) + bytes
  {
    forall i | 0 <= i < |bytes| { a[at + i] := bytes[i]; }
    assert a[at..at + |bytes|] == bytes;
    assert a[..at + |bytes|] == a[..at] + a[at..at + |bytes|];
  }

  // ------------------------------------------------------------------ chunks into pending envelopes

  const MAX_PENDING: nat := 64

  datatype IngestError = BadFrame(error: FrameError) | PendingQueueFull | Undecodable

  /** The envelopes of frames that all decode. */
  ghost predicate Decodes<E(!new)>(decode: Bytes -> Option<E>, frames: seq<Bytes>, envelopes: seq<E>) {
    |envelopes| == |frames| && forall i | 0 <= i < |frames| :: decode(frames[i]) == Some(envelopes[i])
  }

  /** What taking in a chunk must amount to: the frames of buffer and chunk together, in order, as far as
      they fit and decode, and the reason why the rest did not. */
  ghost predicate Ingests<E(!new)>(decode: Bytes -> Option<E>, max: nat, buf: Bytes, pending: seq<E>, chunk: Bytes,
                                   buf': Bytes, pending': seq<E>, error: Option<IngestError>, done: nat) {
    var p := Parse(buf + chunk, max);
    && done <= |p.frames| && |pending'| == |pending| + done && pending'[..|pending|] == pending
    && Decodes(decode, p.frames[..done], pending'[|pending|..])
    && match error
       case None => done == |p.frames| && p.error.None? && buf' == p.rest
       case Some(BadFrame(e)) => done == |p.frames| && p.error == Some(e)
       case Some(PendingQueueFull) => done < |p.frames| && |pending'| >= MAX_PENDING && buf' == p.frames[done]
       case Some(Undecodable) =>
         done < |p.frames| && |pending'| < MAX_PENDING && buf' == p.frames[done] && decode(p.frames[done]).None?
  }

  /** Two chunks in a row are as good as one, as long as the first went in. */
  lemma ChunksConcatenate<E(!new)>(decode: Bytes -> Option<E>, max: nat, buf: Bytes, pending: seq<E>, a: Bytes,
                                   buf1: Bytes, pending1: seq<E>,
                                   n: nat, b: Bytes, buf2: Bytes, pending2: seq<E>, error: Option<IngestError>, m: nat)
    requires Ingests(decode, max, buf, pending, a, buf1, pending1, None, n)
    requires Ingests(decode, max, buf1, pending1, b, buf2, pending2, error, m)
    ensures Ingests(decode, max, buf, pending, a + b, buf2, pending2, error, n + m)
  {
    var p, q := Parse(buf + a, max), Parse(buf1 + b, max);
    ParseAppend(buf + a, b, max);
    assert (buf + a) + b == buf + (a + b);
    var all := Parse(buf + (a + b), max);
    assert all.frames == p.frames + q.frames;
    assert all.frames[..n + m] == p.frames + q.frames[..m];
    assert p.frames[..n] == p.frames;
    PendingConcatenates(pending, pending1, pending2);
    DecodesConcatenate(decode, p.frames, pending1[|pending|..], q.frames[..m], pending2[|pending1|..]);
  }

  lemma PendingConcatenates<E>(pending: seq<E>, pending1: seq<E>, pending2: seq<E>)
    requires |pending| <= |pending1| <= |pending2| && pending1[..|pending|] == pending
             && pending2[..|pending1|] == pending1
    ensures pending2[..|pending|] == pending && pending2[|pending|..] == pending1[|pending|..] + pending2[|pending1|..]
  {
    assert pending2[..|pending|] == pending2[..|pending1|][..|pending|];
  }

  lemma DecodesConcatenate<E(!new)>(decode: Bytes -> Option<E>, f1: seq<Bytes>, e1: seq<E>, f2: seq<Bytes>, e2: seq<E>)
    requires Decodes(decode, f1, e1) && Decodes(decode, f2, e2)
    ensures Decodes(decode, f1 + f2, e1 + e2)
  {
  }

  /** What stopped the reader stops it whatever else the chunk holds. */
  lemma ErrorIsFinal<E(!new)>(decode: Bytes -> Option<E>, max: nat, buf: Bytes, pending: seq<E>, a: Bytes, b: Bytes,
                              buf': Bytes, pending': seq<E>, error: IngestError, n: nat)
    requires Ingests(decode, max, buf, pending, a, buf', pending', Some(error), n)
    ensures Ingests(decode, max, buf, pending, a + b, buf', pending', Some(error), n)
  {
    var p := Parse(buf + a, max);
    ParseAppend(buf + a, b, max);
    assert (buf + a) + b == buf + (a + b);
    var all := Parse(buf + (a + b), max);
    assert |p.frames| <= |all.frames| && all.frames[..|p.frames|] == p.frames;
    assert all.frames[..n] == p.frames[..n];
  }

  /** One complete frame: delivered, or the reason why not. */
  lemma OneFrame<E(!new)>(decode: Bytes -> Option<E>, max: nat, buf: Bytes, pending: seq<E>, piece: Bytes)
    requires |buf + piece| >= PREFIX_LENGTH && FrameLength(buf + piece, max) == Ok(|buf + piece|)
    ensures decode(buf + piece).Some?
            ==> Ingests(decode, max, buf, pending, piece, [], pending + [decode(buf + piece).value], None, 1)
    ensures |pending| >= MAX_PENDING
            ==> Ingests(decode, max, buf, pending, piece, buf + piece, pending, Some(PendingQueueFull), 0)
    ensures |pending| < MAX_PENDING && decode(buf + piece).None? ==>
              Ingests(decode, max, buf, pending, piece, buf + piece, pending, Some(Undecodable), 0)
  {
    WholeFrame(buf + piece, max);
  }

  lemma NothingIngested<E(!new)>(decode: Bytes -> Option<E>, max: nat, buf: Bytes, pending: seq<E>)
    requires Partial(buf, max)
    ensures Ingests(decode, max, buf, pending, [], buf, pending, None, 0)
  {
    assert buf + [] == buf;
  }

  /** A turn on the next piece of the chunk; an error settles the whole chunk. */
  lemma IngestStep<E(!new)>(decode: Bytes -> Option<E>, max: nat, buf: Bytes, pending: seq<E>, chunk: Bytes, from: nat,
                            buf1: Bytes, pending1: seq<E>, done: nat, offset: nat, buf2: Bytes, pending2: seq<E>,
                              error: Option<IngestError>, n: nat)
    requires from <= offset <= |chunk|
    requires Ingests(decode, max, buf, pending, chunk[..from], buf1, pending1, None, done)
    requires Ingests(decode, max, buf1, pending1, chunk[from..offset], buf2, pending2, error, n)
    ensures Ingests(decode, max, buf, pending, if error.Some? then chunk else chunk[..offset], buf2,
                    pending2, error, done + n)
  {
    ChunksConcatenate(decode, max, buf, pending, chunk[..from], buf1, pending1, done, chunk[from..offset],
                      buf2, pending2, error, n);
    assert chunk[..from] + chunk[from..offset] == chunk[..offset];
    if error.Some? {
      ErrorIsFinal(decode, max, buf, pending, chunk[..offset], chunk[offset..], buf2, pending2, error.value, done + n);
      assert chunk[..offset] + chunk[offset..] == chunk;
    }
  }

  /** Taking the first envelope that matches out of the list, if there is one. */
  ghost predicate TakesFirst<E(!new)>(pending: seq<E>, matches: E -> bool, got: Option<E>, pending': seq<E>) {
    match got
    case None => pending' == pending && forall e | e in pending :: !matches(e)
    case Some(e) =>
      exists i {:trigger pending[i]} ::
        && 0 <= i < |pending| && pending[i] == e && matches(e) && (forall j | 0 <= j < i :: !matches(pending[j]))
        && pending' == pending[..i] + pending[i + 1..]
  }

  class ChunkReader<E(!new)> {
    const max: nat
    const decode: Bytes -> Option<E>
    var inBuffer: Bytes
    var pending: seq<E>

    /** Between chunks the buffer holds less than a frame, and the list is bounded. */
    ghost predicate Valid()
      reads this
    {
      max >= MIN_FRAME && Partial(inBuffer, max) && |inBuffer| < max && |pending| <= MAX_PENDING
    }

    constructor (max: nat, decode: Bytes -> Option<E>)
      requires max >= MIN_FRAME
      ensures Valid() && inBuffer == [] && pending == [] && this.max == max && this.decode == decode
    {
      this.max, this.decode := max, decode;
      inBuffer, pending := [], [];
    }

    /** Moves bytes from the chunk into the buffer until the buffer has `upTo` bytes or the chunk is used up.
        The limit on the buffer is never exceeded. */
    method Append(chunk: Bytes, offset: nat, upTo: nat) returns (offset': nat)
      requires offset <= |chunk| && |inBuffer| <= upTo <= max
      modifies this`inBuffer
      ensures offset <= offset' <= |chunk| && inBuffer == old(inBuffer) + chunk[offset..offset']
      ensures |inBuffer| <= upTo && (|inBuffer| == upTo || offset' == |chunk|)
    {
      var n := Least(upTo - |inBuffer|, |chunk| - offset);
      offset' := offset + n;
      inBuffer := inBuffer + chunk[offset..offset'];
    }

    /** Takes bytes until one frame is complete, the chunk is used up or the prefix is bad. */
    method TakeFrame(chunk: Bytes, offset: nat) returns (offset': nat, complete: bool, e: Option<FrameError>)
      requires max >= MIN_FRAME && offset <= |chunk| && Partial(inBuffer, max) && |inBuffer| < max
      modifies this`inBuffer
      ensures offset <= offset' <= |chunk| && inBuffer == old(inBuffer) + chunk[offset..offset'] && |inBuffer| <= max
      ensures e.Some? ==> !complete && Parse(inBuffer, max) == Parsed([], inBuffer, e)
      ensures e.None? && complete ==> |inBuffer| >= PREFIX_LENGTH && FrameLength(inBuffer, max) == Ok(|inBuffer|)
      ensures e.None? && !complete ==> offset' == |chunk| && Partial(inBuffer, max) && |inBuffer| < max
      ensures e.None? && complete && offset < |chunk| ==> offset < offset'
    {
      offset' := offset;
      if |inBuffer| < PREFIX_LENGTH {
        offset' := Append(chunk, offset, PREFIX_LENGTH);
        if |inBuffer| < PREFIX_LENGTH {
          PartialPrefix(inBuffer, max);
          return offset', false, None;
        }
      }
      var length := FrameLength(inBuffer, max);
      if length.Err? { return offset', false, Some(length.error); }
      ghost var head := inBuffer;
      BoundedHead(head, old(inBuffer), max);
      ghost var mid := offset';
      offset' := Append(chunk, offset', length.value);
      PrefixDecides(head, chunk[mid..offset'], max);
      assert chunk[offset..offset'] == chunk[offset..mid] + chunk[mid..offset'];
      if |inBuffer| < length.value {
        PartialFrame(inBuffer, max);
        return offset', false, None;
      }
      return offset', true, None;
    }

    /** One turn: at most one frame is completed and delivered. */
    method IngestFrame(chunk: Bytes, offset: nat) returns (offset': nat, error: Option<IngestError>, ghost n: nat)
      requires Valid() && offset < |chunk|
      modifies this
      ensures offset <= offset' <= |chunk|
      ensures Ingests(decode, max, old(inBuffer), old(pending), chunk[offset..offset'], inBuffer, pending, error, n)
      ensures error.None? ==> Valid() && offset < offset'
      ensures |inBuffer| <= max && |pending| <= MAX_PENDING
    {
      ghost var start := inBuffer;
      var complete, e;
      offset', complete, e := TakeFrame(chunk, offset);
      n := 0;
      if e.Some? { return offset', Some(BadFrame(e.value)), n; }
      if !complete { return offset', None, n; }
      OneFrame(decode, max, start, pending, chunk[offset..offset']);
      if |pending| >= MAX_PENDING { return offset', Some(PendingQueueFull), n; }
      var envelope := decode(inBuffer);
      if envelope.None? { return offset', Some(Undecodable), n; }
      pending, inBuffer, n := pending + [envelope.value], [], 1;
      PartialPrefix(inBuffer, max);
      error := None;
    }

    /** Hands out the first pending envelope that matches. */
    method Take(matches: E -> bool) returns (got: Option<E>)
      requires Valid()
      modifies this`pending
      ensures Valid() && TakesFirst(old(pending), matches, got, pending)
    {
      for i := 0 to |pending|
        invariant pending == old(pending) && forall j | 0 <= j < i :: !matches(pending[j])
      {
        if matches(pending[i]) {
          got := Some(pending[i]);
          pending := pending[..i] + pending[i + 1..];
          return;
        }
      }
      return None;
    }

    /** Takes a whole chunk in, frame by frame. */
    method IngestChunk(chunk: Bytes) returns (error: Option<IngestError>, ghost done: nat)
      requires Valid()
      modifies this
      ensures Ingests(decode, max, old(inBuffer), old(pending), chunk, inBuffer, pending, error, done)
      ensures error.None? ==> Valid()
      ensures |inBuffer| <= max && |pending| <= MAX_PENDING
    {
      var offset := 0;
      done := 0;
      NothingIngested(decode, max, inBuffer, pending);
      assert chunk[..offset] == [];
      while offset < |chunk|
        invariant offset <= |chunk| && Valid()
        invariant Ingests(decode, max, old(inBuffer), old(pending), chunk[..offset], inBuffer, pending, None, done)
      {
        ghost var buf, envelopes, from, n := inBuffer, pending, offset, 0;
        offset, error, n := IngestFrame(chunk, offset);
        IngestStep(decode, max, old(inBuffer), old(pending), chunk, from, buf, envelopes, done, offset,
                   inBuffer, pending, error, n);
        done := done + n;
        if error.Some? { return; }
      }
      assert chunk[..offset] == chunk;
      return None, done;
    }
  }

  lemma BoundedHead(head: Bytes, before: Bytes, max: nat)
    requires |head| >= PREFIX_LENGTH && FrameLength(head, max).Ok?
    requires |head| == PREFIX_LENGTH || (head == before && Partial(before, max))
    ensures |head| <= FrameLength(head, max).value
  {
  }
}
