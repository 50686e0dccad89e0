/** Size-prefixed frames: the parse of a whole byte stream, and why it does not depend on how the stream
    was cut into pieces. */
module Framing {
  import opened Model

  const PREFIX_LENGTH: nat := 4
  const MIN_ENCODED: nat := 8
  const MIN_FRAME: nat := 12

  datatype FrameError = InvalidSizePrefix(size: nat) | FrameTooLarge(actual: nat, maximum: nat)

  /** The little-endian size prefix. */
  function SizeOf(p: Bytes): nat
    requires |p| >= PREFIX_LENGTH
  {
    p[0] + 0x100 * p[1] + 0x1_0000 * p[2] + 0x100_0000 * p[3]
  }

  function FrameLength(p: Bytes, max: nat): (r: Result<nat, FrameError>)
    requires |p| >= PREFIX_LENGTH
    ensures r.Ok? ==> MIN_FRAME <= r.value <= max
  {
    var n := SizeOf(p);
    if n < MIN_ENCODED then Err(InvalidSizePrefix(n))
    else if n + PREFIX_LENGTH > max then Err(FrameTooLarge(n + PREFIX_LENGTH, max))
    else Ok(n + PREFIX_LENGTH)
  }

  /** The little-endian prefix of an encoded length. */
  function Prefix(n: nat): Bytes { [n % 0x100, n / 0x100 % 0x100, n / 0x1_0000 % 0x100, n / 0x100_0000] }

  /** Every length written as a prefix is read back as itself, and accepted exactly within the limits. */
  lemma PrefixRoundTrip(n: nat, body: Bytes, max: nat)
    ensures SizeOf(Prefix(n) + body) == n
    ensures FrameLength(Prefix(n) + body, max) == Ok(n + PREFIX_LENGTH) <==> MIN_FRAME <= n + PREFIX_LENGTH <= max
    ensures FrameLength(Prefix(n) + body, max).Ok? ==> FrameLength(Prefix(n) + body, max).value == n + PREFIX_LENGTH
  {
    var a, b := n / 0x100, n / 0x1_0000;
    assert n == 0x100 * a + n % 0x100;
    assert a / 0x100 == b && a == 0x100 * b + a % 0x100;
    assert b / 0x100 == n / 0x100_0000 && b == 0x100 * (b / 0x100) + b % 0x100;
  }

  /** The complete frames of a stream, the bytes left over and the first framing error, if any. */
  datatype Parsed = Parsed(frames: seq<Bytes>, rest: Bytes, error: Option<FrameError>)

  function Parse(s: Bytes, max: nat): Parsed
    decreases |s|
  {
    if |s| < PREFIX_LENGTH then Parsed([], s, None)
    else
      var n := FrameLength(s, max);
      if n.Err? then Parsed([], s, Some(n.error))
      else if |s| < n.value then Parsed([], s, None)
      else
        var more := Parse(s[n.value..], max);
        Parsed([s[..n.value]] + more.frames, more.rest, more.error)
  }

  /** An incomplete frame. */
  ghost predicate Partial(b: Bytes, max: nat) { Parse(b, max) == Parsed([], b, None) }

  lemma PrefixDecides(a: Bytes, b: Bytes, max: nat)
    requires |a| >= PREFIX_LENGTH
    ensures FrameLength(a + b, max) == FrameLength(a, max)
  {
  }

  /** Taking up parsing again with more bytes; after an error nothing more is parsed. */
  function Resume(p: Parsed, b: Bytes, max: nat): Parsed {
    if p.error.Some? then Parsed(p.frames, p.rest + b, p.error)
    else
      var q := Parse(p.rest + b, max);
      Parsed(p.frames + q.frames, q.rest, q.error)
  }

  /** Parsing does not depend on where the stream was cut. */
  lemma {:induction false} ParseAppend(a: Bytes, b: Bytes, max: nat)
    ensures Parse(a + b, max) == Resume(Parse(a, max), b, max)
    decreases |a|
  {
    if |a| >= PREFIX_LENGTH && FrameLength(a, max).Ok? && FrameLength(a, max).value <= |a| {
      var n := FrameLength(a, max).value;
      ParseAppend(a[n..], b, max);
      AppendFrame(a, b, n, max);
      ResumeAfter(a[..n], Parse(a[n..], max), b, max);
    } else {
      AppendStopped(a, b, max);
    }
  }

  lemma ResumeAfter(f: Bytes, p: Parsed, b: Bytes, max: nat)
    ensures var q := Resume(p, b, max);
            Resume(Parsed([f] + p.frames, p.rest, p.error), b, max) == Parsed([f] + q.frames, q.rest, q.error)
  {
    if p.error.None? {
      var q := Parse(p.rest + b, max);
      assert [f] + (p.frames + q.frames) == ([f] + p.frames) + q.frames;
    }
  }

  lemma AppendStopped(a: Bytes, b: Bytes, max: nat)
    requires |a| < PREFIX_LENGTH || FrameLength(a, max).Err? || FrameLength(a, max).value > |a|
    ensures Parse(a + b, max) == Resume(Parse(a, max), b, max)
  {
    if |a| >= PREFIX_LENGTH { PrefixDecides(a, b, max); }
  }

  lemma AppendFrame(a: Bytes, b: Bytes, n: nat, max: nat)
    requires |a| >= PREFIX_LENGTH && FrameLength(a, max) == Ok(n) && n <= |a|
    ensures var more, all := Parse(a[n..], max), Parse(a[n..] + b, max);
            && Parse(a, max) == Parsed([a[..n]] + more.frames, more.rest, more.error)
            && Parse(a + b, max) == Parsed([a[..n]] + all.frames, all.rest, all.error)
  {
    PrefixDecides(a, b, max);
    assert (a + b)[..n] == a[..n] && (a + b)[n..] == a[n..] + b;
  }

  /** The rest is an incomplete frame, shorter than the limit. */
  lemma {:induction false} RestIsPartial(s: Bytes, max: nat)
    requires Parse(s, max).error.None?
    ensures Partial(Parse(s, max).rest, max) && (|Parse(s, max).rest| < PREFIX_LENGTH || |Parse(s, max).rest| < max)
    decreases |s|
  {
    if |s| >= PREFIX_LENGTH && FrameLength(s, max).value <= |s| {
      RestIsPartial(s[FrameLength(s, max).value..], max);
    }
  }

  function Concat(frames: seq<Bytes>): Bytes { if frames == [] then [] else frames[0] + Concat(frames[1..]) }

  /** No byte is lost, repeated or reordered. */
  lemma {:induction false} ParseKeepsBytes(s: Bytes, max: nat)
    ensures Concat(Parse(s, max).frames) + Parse(s, max).rest == s
    decreases |s|
  {
    if |s| >= PREFIX_LENGTH {
      var n := FrameLength(s, max);
      if n.Ok? && n.value <= |s| {
        ParseKeepsBytes(s[n.value..], max);
        var more := Parse(s[n.value..], max);
        assert Parse(s, max).frames[1..] == more.frames;
        assert s == s[..n.value] + (Concat(more.frames) + more.rest);
      }
    }
  }

  /** Every frame carries its own length. */
  lemma {:induction false} FramesWellFormed(s: Bytes, max: nat, i: nat)
    requires i < |Parse(s, max).frames|
    ensures var f := Parse(s, max).frames[i]; |f| >= PREFIX_LENGTH && FrameLength(f, max) == Ok(|f|)
    decreases |s|
  {
    var n := FrameLength(s, max).value;
    PrefixDecides(s[..n], s[n..], max);
    assert s == s[..n] + s[n..];
    if i > 0 { FramesWellFormed(s[n..], max, i - 1); }
  }

  // ------------------------------------------------------------------ receiving one frame at a time

  /** What one receive call ended with: dropped while waiting, stream over, a frame, or a bad prefix. */
  datatype Outcome = Pending | Ended | Frame(frame: Bytes) | Failed(error: FrameError)

  /** One receive call took `taken` off the stream, starting with `buf` and leaving `buf'` buffered. */
  ghost predicate Receives(buf: Bytes, taken: Bytes, outcome: Outcome, buf': Bytes, max: nat) {
    match outcome
    case Frame(f) => f == buf + taken && Parse(f, max) == Parsed([f], [], None) && buf' == []
    case Failed(e) => buf' == buf + taken && Parse(buf', max) == Parsed([], buf', Some(e))
    case _ => buf' == buf + taken && Partial(buf', max)
  }

  function Frames(outcomes: seq<Outcome>): seq<Bytes> {
    if outcomes == [] then []
    else
      var init, last := Frames(outcomes[..|outcomes| - 1]), outcomes[|outcomes| - 1];
      if last.Frame? then init + [last.frame] else init
  }

  function Total(taken: seq<Bytes>): Bytes {
    if taken == [] then [] else Total(taken[..|taken| - 1]) + taken[|taken| - 1]
  }

  /** A run of receive calls; `bufs[i]` is buffered before call `i`. Nothing is called after a failure. */
  ghost predicate Run(bufs: seq<Bytes>, taken: seq<Bytes>, outcomes: seq<Outcome>, max: nat) {
    && |taken| == |outcomes| && |bufs| == |outcomes| + 1 && bufs[0] == []
    && (forall i | 0 <= i < |outcomes| :: Receives(bufs[i], taken[i], outcomes[i], bufs[i + 1], max))
    && (forall i | 0 <= i < |outcomes| - 1 :: !outcomes[i].Failed?)
  }

  ghost function ErrorOf(outcomes: seq<Outcome>): Option<FrameError> {
    if outcomes != [] && outcomes[|outcomes| - 1].Failed? then Some(outcomes[|outcomes| - 1].error) else None
  }

  lemma RunInit(bufs: seq<Bytes>, taken: seq<Bytes>, outcomes: seq<Outcome>, max: nat)
    requires Run(bufs, taken, outcomes, max) && outcomes != []
    ensures var n := |outcomes| - 1; Run(bufs[..n + 1], taken[..n], outcomes[..n], max) && ErrorOf(outcomes[..n]).None?
  {
    var n := |outcomes| - 1;
    forall i | 0 <= i < n
      ensures Receives(bufs[..n + 1][i], taken[..n][i], outcomes[..n][i], bufs[..n + 1][i + 1], max) {
      assert Receives(bufs[i], taken[i], outcomes[i], bufs[i + 1], max);
    }
  }

  /** However the bytes were split over reads and wherever receive calls were dropped, the frames, the
      buffered rest and the framing error are those of the whole stream. */
  lemma {:induction false} RunParsesWholeStream(bufs: seq<Bytes>, taken: seq<Bytes>, outcomes: seq<Outcome>, max: nat)
    requires Run(bufs, taken, outcomes, max)
    ensures Parse(Total(taken), max) == Parsed(Frames(outcomes), bufs[|outcomes|], ErrorOf(outcomes))
    decreases |outcomes|
  {
    if outcomes != [] {
      var n := |outcomes| - 1;
      RunInit(bufs, taken, outcomes, max);
      RunParsesWholeStream(bufs[..n + 1], taken[..n], outcomes[..n], max);
      assert Receives(bufs[n], taken[n], outcomes[n], bufs[n + 1], max);
      ParseAppend(Total(taken[..n]), taken[n], max);
    }
  }
}
