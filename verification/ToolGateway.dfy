/** The status tool: each call loads a revision, sends a publish to the core's worker, awaits the reply
    and stores the next revision. Calls interleave freely, each with its own context, and may be dropped
    at any await; a command already in the mailbox is worked off all the same. */
module ToolGateway {
  import opened Model
  import opened SessionGraph
  import opened Publishing

  /** The key under which the core numbers a context's publishes. */
  type Context = SequenceKey

  /** A call in flight: before its command is in the mailbox, waiting for the reply, or with the reply at
      hand. An orphan is a command in the mailbox whose caller is gone. */
  datatype Call =
    | Loaded(context: Context, next: nat)
    | Sent(context: Context, next: nat)
    | Orphan(context: Context, next: nat)
    | Replied(context: Context, next: nat, accepted: bool)

  datatype Answer = Stale | Denied | Completed(revision: nat)

  /** `stored` is the core's table of newest sequences. */
  datatype Tool = Tool(revision: nat, stored: map<Context, nat>, calls: map<nat, Call>, answers: seq<Answer>)

  const NEW_TOOL := Tool(1, map[], map[], [])

  /** One atomic piece: of some call, of the worker, or of another command that makes the core forget keys.
      `policy` is what every other check of the core says. */
  datatype Step =
    | Load(call: nat, context: Context, expected: nat)
    | Send(call: nat)
    | Work(call: nat, policy: bool)
    | Resume(call: nat)
    | Drop(call: nat)
    | Forget(contexts: set<Context>)

  predicate Newer(stored: map<Context, nat>, k: Context, n: nat) { k in stored ==> stored[k] < n }

  predicate InMailbox(t: Tool, c: nat) { c in t.calls && (t.calls[c].Sent? || t.calls[c].Orphan?) }

  /** The worker takes the publish of `c`. */
  predicate Takes(t: Tool, s: Step) {
    s.Work? && InMailbox(t, s.call) && s.policy && Newer(t.stored, t.calls[s.call].context, t.calls[s.call].next)
  }

  function Next(t: Tool, s: Step): Tool {
    match s
    case Load(c, k, expected) =>
      if c in t.calls then t
      else if expected != t.revision then t.(answers := t.answers + [Stale])
      else t.(calls := t.calls[c := Loaded(k, t.revision + 1)])
    case Send(c) =>
      if c in t.calls && t.calls[c].Loaded?
         then t.(calls := t.calls[c := Sent(t.calls[c].context, t.calls[c].next)]) else t
    case Work(c, policy) =>
      if !InMailbox(t, c) then t
      else
        var call := t.calls[c];
        t.(stored := if Takes(t, s) then t.stored[call.context := call.next] else t.stored,
           calls := if call.Orphan? then t.calls - {c} else t.calls[c := Replied(call.context, call.next, Takes(t, s))])
    case Resume(c) =>
      if c !in t.calls || !t.calls[c].Replied? then t
      else if t.calls[c].accepted
      then t.(revision := t.calls[c].next, calls := t.calls - {c}, answers := t.answers + [Completed(t.calls[c].next)])
      else t.(calls := t.calls - {c}, answers := t.answers + [Denied])
    case Drop(c) =>
      if c in t.calls && t.calls[c].Sent? then t.(calls := t.calls[c := Orphan(t.calls[c].context, t.calls[c].next)])
      else if c in t.calls && !t.calls[c].Orphan? then t.(calls := t.calls - {c})
      else t
    case Forget(ks) => t.(stored := t.stored - ks)
  }

  function RunFrom(t: Tool, steps: seq<Step>): Tool {
    if steps == [] then t else Next(RunFrom(t, steps[..|steps| - 1]), steps[|steps| - 1])
  }

  function Run(steps: seq<Step>): Tool { RunFrom(NEW_TOOL, steps) }

  lemma RunSnoc(t: Tool, steps: seq<Step>, s: Step)
    ensures RunFrom(t, steps + [s]) == Next(RunFrom(t, steps), s)
  {
    assert (steps + [s])[..|steps|] == steps;
  }

  /** The core's own check, on its own table. */
  lemma CoreTakesOnlyNewer(s: Session, sk: SessionKey, config: CoreConfig, channels: Channels,
                           c: nat, m: OutboundMessage)
    requires ValidateMessage(s, sk, config, channels, c, m, map[]).None?
    ensures Newer(s.sequences, SequenceKeyOf(c, m), m.sequence)
  {
  }

  // ------------------------------------------------------------------ what was handed out

  function Revisions(answers: seq<Answer>): seq<nat> {
    if answers == [] then []
    else
      var init, last := Revisions(answers[..|answers| - 1]), answers[|answers| - 1];
      if last.Completed? then init + [last.revision] else init
  }

  lemma AnswerAdded(answers: seq<Answer>, a: Answer)
    ensures Revisions(answers + [a]) == if a.Completed? then Revisions(answers) + [a.revision] else Revisions(answers)
  {
    assert (answers + [a])[..|answers|] == answers;
  }

  /** No revision was handed out twice. */
  ghost predicate HandedOutOnce(t: Tool) {
    var r := Revisions(t.answers);
    forall i, j | 0 <= i < j < |r| :: r[i] != r[j]
  }

  /** The completed calls were given the revisions 2, 3, ... up to the current one, each once, in order. */
  ghost predicate Consecutive(t: Tool) {
    var r := Revisions(t.answers);
    |r| + 1 == t.revision && forall i | 0 <= i < |r| :: r[i] == i + 2
  }

  /** Published with the caller still there to store it. */
  ghost predicate Waits(t: Tool, c: nat) { c in t.calls && t.calls[c].Replied? && t.calls[c].accepted }

  /** A publish for a present caller is taken cleanly: for the next revision, and nobody else is about to store. */
  ghost predicate CleanStep(t: Tool, s: Step) {
    Takes(t, s) && t.calls[s.call].Sent? ==> t.calls[s.call].next == t.revision + 1 && forall c :: !Waits(t, c)
  }

  ghost predicate Clean(steps: seq<Step>) {
    forall n | 0 <= n < |steps| :: CleanStep(Run(steps[..n]), steps[n])
  }

  // ------------------------------------------------------------------ clean runs

  /** The revision is what was handed out last, and at most one call is about to store the next. */
  ghost predicate InStep(t: Tool) {
    && t.revision >= 1 && Consecutive(t)
    && (forall c | c in t.calls :: 2 <= t.calls[c].next <= t.revision + 1)
    && (forall c | Waits(t, c) :: t.calls[c].next == t.revision + 1)
    && (forall a, b | Waits(t, a) && Waits(t, b) :: a == b)
  }

  lemma CleanKeepsInStep(t: Tool, s: Step)
    requires InStep(t) && CleanStep(t, s)
    ensures InStep(Next(t, s)) && t.revision <= Next(t, s).revision <= t.revision + 1
  {
    StepConsecutive(t, s);
    var t' := Next(t, s);
    assert forall c | Waits(t', c) && !(s.Work? && c == s.call) :: Waits(t, c);
    if s.Resume? && Waits(t, s.call) { assert forall c :: Waits(t, c) ==> c == s.call; }
  }

  lemma StepConsecutive(t: Tool, s: Step)
    requires Consecutive(t) && forall c | Waits(t, c) :: t.calls[c].next == t.revision + 1
    ensures Consecutive(Next(t, s))
  {
    AnswerAdded(t.answers, Stale);
    AnswerAdded(t.answers, Denied);
    if s.Resume? && Waits(t, s.call) { AnswerAdded(t.answers, Completed(t.calls[s.call].next)); }
  }

  lemma CleanInit(steps: seq<Step>)
    requires steps != [] && Clean(steps)
    ensures Clean(steps[..|steps| - 1]) && CleanStep(Run(steps[..|steps| - 1]), steps[|steps| - 1])
  {
    var init := steps[..|steps| - 1];
    forall n | 0 <= n < |init| ensures CleanStep(Run(init[..n]), init[n]) {
      assert init[..n] == steps[..n];
    }
  }

  /** As long as publishes are taken cleanly, no store takes the revision back and each revision is handed
      out once, in order. */
  lemma {:induction false} CleanRunsInStep(steps: seq<Step>)
    requires Clean(steps)
    ensures InStep(Run(steps))
  {
    if steps != [] {
      CleanInit(steps);
      CleanRunsInStep(steps[..|steps| - 1]);
      CleanKeepsInStep(Run(steps[..|steps| - 1]), steps[|steps| - 1]);
    }
  }

  // ------------------------------------------------------------------ and only clean runs

  ghost predicate OnlyResumes(steps: seq<Step>) { forall s | s in steps :: s.Resume? }

  /** However far the run has come, letting callers finish hands no revision out twice. */
  ghost predicate AlwaysOnce(steps: seq<Step>) {
    forall n, rs | 0 <= n <= |steps| && OnlyResumes(rs) :: HandedOutOnce(RunFrom(Run(steps[..n]), rs))
  }

  lemma {:induction false} ResumesKeepInStep(t: Tool, rs: seq<Step>)
    requires InStep(t) && OnlyResumes(rs)
    ensures InStep(RunFrom(t, rs))
  {
    if rs != [] {
      assert rs[|rs| - 1] in rs;
      ResumesKeepInStep(t, rs[..|rs| - 1]);
      CleanKeepsInStep(RunFrom(t, rs[..|rs| - 1]), rs[|rs| - 1]);
    }
  }

  lemma CleanPrefix(steps: seq<Step>, n: nat)
    requires n <= |steps| && Clean(steps)
    ensures Clean(steps[..n])
  {
    forall i | 0 <= i < n ensures CleanStep(Run(steps[..n][..i]), steps[..n][i]) {
      assert steps[..n][..i] == steps[..i];
    }
  }

  lemma ResumeCompletes(t: Tool, c: nat)
    requires Waits(t, c)
    ensures Revisions(Next(t, Resume(c)).answers) == Revisions(t.answers) + [t.calls[c].next]
  {
    AnswerAdded(t.answers, Completed(t.calls[c].next));
  }

  /** After a publish that was not taken cleanly, one or two callers finishing hand a revision out twice. */
  lemma UncleanDuplicates(t: Tool, s: Step) returns (rs: seq<Step>)
    requires InStep(t) && !CleanStep(t, s)
    ensures OnlyResumes(rs) && !HandedOutOnce(RunFrom(Next(t, s), rs))
  {
    var t1, n := Next(t, s), t.calls[s.call].next;
    assert Waits(t1, s.call) && t1.calls[s.call].next == n && t1.answers == t.answers;
    var r := Revisions(t.answers);
    if n <= t.revision {
      rs := [Resume(s.call)];
      RunSnoc(t1, [], Resume(s.call));
      assert [] + [Resume(s.call)] == rs;
      ResumeCompletes(t1, s.call);
      var r' := r + [n];
      assert r'[n - 2] == n && r'[|r|] == n;
    } else {
      var o :| Waits(t, o);
      assert Waits(t1, o) && o != s.call && t1.calls[o].next == n;
      var t2 := Next(t1, Resume(o));
      ResumeCompletes(t1, o);
      assert Waits(t2, s.call) && t2.calls[s.call].next == n;
      ResumeCompletes(t2, s.call);
      rs := [Resume(o), Resume(s.call)];
      RunSnoc(t1, [], Resume(o));
      RunSnoc(t1, [Resume(o)], Resume(s.call));
      assert [] + [Resume(o)] == [Resume(o)] && [Resume(o)] + [Resume(s.call)] == rs;
      var r' := (r + [n]) + [n];
      assert r'[|r|] == n && r'[|r| + 1] == n;
    }
  }

  lemma FirstUnclean(steps: seq<Step>) returns (n: nat)
    requires !Clean(steps)
    ensures n < |steps| && Clean(steps[..n]) && !CleanStep(Run(steps[..n]), steps[n])
  {
    n := 0;
    while n < |steps| && CleanStep(Run(steps[..n]), steps[n])
      invariant n <= |steps| && forall i | 0 <= i < n :: CleanStep(Run(steps[..i]), steps[i])
    {
      n := n + 1;
    }
    forall i | 0 <= i < n ensures CleanStep(Run(steps[..n][..i]), steps[..n][i]) {
      assert steps[..n][..i] == steps[..i];
    }
  }

  /** Exactly: no revision can be handed out twice if and only if every publish was taken cleanly. */
  lemma OnceExactlyWhenClean(steps: seq<Step>)
    ensures Clean(steps) <==> AlwaysOnce(steps)
  {
    if Clean(steps) {
      forall n, rs | 0 <= n <= |steps| && OnlyResumes(rs) ensures HandedOutOnce(RunFrom(Run(steps[..n]), rs)) {
        CleanPrefix(steps, n);
        CleanRunsInStep(steps[..n]);
        ResumesKeepInStep(Run(steps[..n]), rs);
      }
    } else {
      var n := FirstUnclean(steps);
      CleanRunsInStep(steps[..n]);
      var rs := UncleanDuplicates(Run(steps[..n]), steps[n]);
      assert steps[..n + 1][..n] == steps[..n];
      assert Run(steps[..n + 1]) == Next(Run(steps[..n]), steps[n]);
      assert !HandedOutOnce(RunFrom(Run(steps[..n + 1]), rs));
    }
  }

  // ------------------------------------------------------------------ one context, nothing forgotten

  /** Every call uses the context `k`, and the core never forgets its key. */
  ghost predicate OneContext(steps: seq<Step>, k: Context) {
    forall s | s in steps :: (s.Load? ==> s.context == k) && (s.Forget? ==> k !in s.contexts)
  }

  /** The core's number is the revision, or exactly one ahead of it. */
  ghost predicate CoreInStep(t: Tool, k: Context) {
    && (forall c | c in t.calls :: t.calls[c].context == k)
    && (k in t.stored ==> t.stored[k] == t.revision || t.stored[k] == t.revision + 1)
    && (k !in t.stored ==> t.revision == 1 && forall c :: !Waits(t, c))
    && (forall c | Waits(t, c) :: t.stored[k] == t.revision + 1)
  }

  lemma OneContextStep(t: Tool, s: Step, k: Context)
    requires InStep(t) && CoreInStep(t, k) && (s.Load? ==> s.context == k) && (s.Forget? ==> k !in s.contexts)
    ensures CleanStep(t, s) && CoreInStep(Next(t, s), k)
  {
    var t' := Next(t, s);
    assert forall c | Waits(t', c) && !(s.Work? && c == s.call) :: Waits(t, c);
    if s.Resume? && Waits(t, s.call) { assert forall c :: Waits(t, c) ==> c == s.call; }
  }

  /** With one context whose key is never forgotten, the core's sequence check alone keeps every run clean,
      whatever calls are dropped and whenever. */
  lemma {:induction false} OneContextIsClean(steps: seq<Step>, k: Context)
    requires OneContext(steps, k)
    ensures Clean(steps) && InStep(Run(steps)) && CoreInStep(Run(steps), k)
  {
    if steps != [] {
      var init, last := steps[..|steps| - 1], steps[|steps| - 1];
      OneContextIsClean(init, k);
      assert last in steps;
      OneContextStep(Run(init), last, k);
      CleanKeepsInStep(Run(init), last);
      forall n | 0 <= n < |steps| ensures CleanStep(Run(steps[..n]), steps[n]) {
        if n < |init| { assert init[..n] == steps[..n]; } else { assert steps[..n] == init; }
      }
    }
  }

  lemma {:induction false} StoredGrows(t: Tool, steps: seq<Step>, k: Context)
    requires k in t.stored && forall s | s in steps && s.Forget? :: k !in s.contexts
    ensures k in RunFrom(t, steps).stored && t.stored[k] <= RunFrom(t, steps).stored[k]
  {
    if steps != [] {
      StoredGrows(t, steps[..|steps| - 1], k);
    }
  }

  /** Of any two calls with the same context and number at most one is ever taken, as long as the key is kept. */
  lemma RacersExclude(t: Tool, a: nat, steps: seq<Step>, s: Step)
    requires Takes(t, Work(a, true)) && forall x | x in steps && x.Forget? :: t.calls[a].context !in x.contexts
    requires s.Work? && InMailbox(RunFrom(Next(t, Work(a, true)), steps), s.call)
    requires var call := RunFrom(Next(t, Work(a, true)), steps).calls[s.call];
             call.context == t.calls[a].context && call.next == t.calls[a].next
    ensures !Takes(RunFrom(Next(t, Work(a, true)), steps), s)
  {
    StoredGrows(Next(t, Work(a, true)), steps, t.calls[a].context);
  }

  // ------------------------------------------------------------------ blocked tools

  /** The core is one ahead in the context and nobody is left to store it. */
  ghost predicate Wedged(t: Tool, k: Context) {
    k in t.stored && t.stored[k] == t.revision + 1 && forall c :: !Waits(t, c)
  }

  lemma WedgedStep(t: Tool, s: Step, k: Context)
    requires InStep(t) && CoreInStep(t, k) && Wedged(t, k) && (s.Load? ==> s.context == k)
             && (s.Forget? ==> k !in s.contexts)
    ensures var t' := Next(t, s);
            Wedged(t', k) && t'.revision == t.revision && Revisions(t'.answers) == Revisions(t.answers)
  {
    AnswerAdded(t.answers, Stale);
    AnswerAdded(t.answers, Denied);
    var t' := Next(t, s);
    assert s.Resume? ==> !Waits(t, s.call);
    assert !Takes(t, s);
    forall c ensures !Waits(t', c) { assert !Waits(t, c); }
  }

  /** As long as the context stays the same and its key is kept, a wedged tool completes nothing any more. */
  lemma {:induction false} WedgedWhileRemembered(before: seq<Step>, after: seq<Step>, k: Context)
    requires OneContext(before + after, k) && Wedged(Run(before), k)
    ensures var t, t' := Run(before), Run(before + after);
            Wedged(t', k) && t'.revision == t.revision && Revisions(t'.answers) == Revisions(t.answers)
  {
    if after == [] {
      assert before + after == before;
    } else {
      var init, last := after[..|after| - 1], after[|after| - 1];
      assert before + after == (before + init) + [last];
      assert OneContext(before + init, k) by {
        forall s | s in before + init ensures (s.Load? ==> s.context == k) && (s.Forget? ==> k !in s.contexts) {
          assert s in before + after;
        }
      }
      WedgedWhileRemembered(before, init, k);
      OneContextIsClean(before + init, k);
      assert last in before + after;
      WedgedStep(Run(before + init), last, k);
      RunSnoc(NEW_TOOL, before + init, last);
    }
  }

  /** Exactly what wedges the tool: a caller dropped with its publish taken and not stored, or a publish
      taken whose caller was dropped while the command was in the mailbox. */
  lemma WedgedExactlyBy(t: Tool, s: Step, k: Context)
    requires InStep(t) && CoreInStep(t, k) && !Wedged(t, k) && (s.Load? ==> s.context == k)
             && (s.Forget? ==> k !in s.contexts)
    ensures Wedged(Next(t, s), k)
            <==> (s.Drop? && Waits(t, s.call)) || (Takes(t, s) && t.calls[s.call].Orphan?)
  {
    var t' := Next(t, s);
    assert forall c | Waits(t', c) && !(s.Work? && c == s.call) :: Waits(t, c);
    if s.Drop? && Waits(t, s.call) {
      assert forall c :: Waits(t', c) ==> Waits(t, c) && c != s.call;
    } else if Takes(t, s) && t.calls[s.call].Orphan? {
      assert t'.stored[k] == t'.revision + 1;
      assert forall c :: Waits(t', c) ==> Waits(t, c);
    } else if Takes(t, s) {
      assert Waits(t', s.call);
    } else if exists c :: Waits(t, c) {
      var c :| Waits(t, c);
      if s.Resume? && s.call == c { assert t'.revision == t.revision + 1; } else { assert Waits(t', c); }
    }
  }

  ghost function Undisturbed(t: Tool, c: nat, k: Context, policy: bool): Tool {
    Next(Next(Next(Next(t, Load(c, k, t.revision)), Send(c)), Work(c, policy)), Resume(c))
  }

  /** An undisturbed call with the current revision completes if and only if the core's other checks pass and
      the core knows no number of its context beyond the current revision. */
  lemma UndisturbedCall(t: Tool, c: nat, k: Context, policy: bool)
    requires c !in t.calls
    ensures (Undisturbed(t, c, k, policy).answers == t.answers + [Completed(t.revision + 1)])
            <==> policy && Newer(t.stored, k, t.revision + 1)
  {
    var t1 := Next(t, Load(c, k, t.revision));
    assert c in t1.calls && t1.calls[c] == Loaded(k, t.revision + 1);
    var t2 := Next(t1, Send(c));
    assert t2.calls[c] == Sent(k, t.revision + 1) && t2.stored == t.stored;
    var t3 := Next(t2, Work(c, policy));
    var taken := policy && Newer(t.stored, k, t.revision + 1);
    assert t3.calls[c] == Replied(k, t.revision + 1, taken) && t3.answers == t.answers;
    if !taken {
      assert Next(t3, Resume(c)).answers == t.answers + [Denied];
      assert (t.answers + [Denied])[|t.answers|] != Completed(t.revision + 1);
    }
  }

  /** When the core forgets the key, or in another context, a wedged tool works again. */
  lemma ForgettingUnwedges(t: Tool, c: nat, k: Context, other: Context)
    requires Wedged(t, k) && c !in t.calls && Newer(t.stored, other, t.revision + 1)
    ensures var t' := Next(t, Forget({k}));
            Undisturbed(t', c, k, true).answers == t.answers + [Completed(t.revision + 1)]
    ensures Undisturbed(t, c, other, true).answers == t.answers + [Completed(t.revision + 1)]
  {
    UndisturbedCall(Next(t, Forget({k})), c, k, true);
    UndisturbedCall(t, c, other, true);
  }

  // ------------------------------------------------------------------ runs that are not clean

  /** Two contexts of one tool: both calls load revision 1, both are published and both complete with 2. */
  lemma TwoContextsDuplicate(k1: Context, k2: Context)
    requires k1 != k2
    ensures Run([Load(1, k1, 1), Load(2, k2, 1), Send(1), Send(2), Work(1, true), Work(2, true),
                 Resume(1), Resume(2)]).answers
         == [Completed(2), Completed(2)]
  {
    var s1 := [Load(1, k1, 1)];
    var s2 := s1 + [Load(2, k2, 1)];
    var s3 := s2 + [Send(1)];
    var s4 := s3 + [Send(2)];
    var s5 := s4 + [Work(1, true)];
    var s6 := s5 + [Work(2, true)];
    var s7 := s6 + [Resume(1)];
    var s8 := s7 + [Resume(2)];
    RunSnoc(NEW_TOOL, [], Load(1, k1, 1));
    assert [] + [Load(1, k1, 1)] == s1;
    RunSnoc(NEW_TOOL, s1, Load(2, k2, 1));
    RunSnoc(NEW_TOOL, s2, Send(1));
    RunSnoc(NEW_TOOL, s3, Send(2));
    assert Run(s4) == Tool(1, map[], map[1 := Sent(k1, 2), 2 := Sent(k2, 2)], []);
    RunSnoc(NEW_TOOL, s4, Work(1, true));
    RunSnoc(NEW_TOOL, s5, Work(2, true));
    assert Run(s6) == Tool(1, map[k1 := 2, k2 := 2], map[1 := Replied(k1, 2, true), 2 := Replied(k2, 2, true)], []);
    RunSnoc(NEW_TOOL, s6, Resume(1));
    RunSnoc(NEW_TOOL, s7, Resume(2));
    assert Run(s8).answers == [Completed(2), Completed(2)];
    assert s8 == [Load(1, k1, 1), Load(2, k2, 1), Send(1), Send(2), Work(1, true), Work(2, true), Resume(1), Resume(2)];
  }

  /** One context whose key is forgotten: a call that loaded revision 1 is published after another one has
      completed, and revision 2 is handed out again. */
  lemma ForgottenKeyDuplicates(k: Context)
    ensures Run([Load(1, k, 1), Load(2, k, 1), Send(1), Send(2), Work(1, true), Resume(1), Forget({k}),
                 Work(2, true), Resume(2)]).answers
         == [Completed(2), Completed(2)]
  {
    var s1 := [Load(1, k, 1)];
    var s2 := s1 + [Load(2, k, 1)];
    var s3 := s2 + [Send(1)];
    var s4 := s3 + [Send(2)];
    var s5 := s4 + [Work(1, true)];
    var s6 := s5 + [Resume(1)];
    var s7 := s6 + [Forget({k})];
    var s8 := s7 + [Work(2, true)];
    var s9 := s8 + [Resume(2)];
    RunSnoc(NEW_TOOL, [], Load(1, k, 1));
    assert [] + [Load(1, k, 1)] == s1;
    RunSnoc(NEW_TOOL, s1, Load(2, k, 1));
    RunSnoc(NEW_TOOL, s2, Send(1));
    RunSnoc(NEW_TOOL, s3, Send(2));
    assert Run(s4) == Tool(1, map[], map[1 := Sent(k, 2), 2 := Sent(k, 2)], []);
    RunSnoc(NEW_TOOL, s4, Work(1, true));
    RunSnoc(NEW_TOOL, s5, Resume(1));
    assert Run(s6) == Tool(2, map[k := 2], map[2 := Sent(k, 2)], [Completed(2)]);
    RunSnoc(NEW_TOOL, s6, Forget({k}));
    RunSnoc(NEW_TOOL, s7, Work(2, true));
    assert Run(s8) == Tool(2, map[k := 2], map[2 := Replied(k, 2, true)], [Completed(2)]);
    RunSnoc(NEW_TOOL, s8, Resume(2));
    assert s9 == [Load(1, k, 1), Load(2, k, 1), Send(1), Send(2), Work(1, true), Resume(1), Forget({k}),
                  Work(2, true), Resume(2)];
  }
}
