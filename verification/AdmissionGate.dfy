/** The admission gate (class AdmissionController of omp_admission.ts).

    Every model call of a controlled session passes through the gate, which
    refuses it when the gate is shut, the deadline has passed, the visible
    history was rewritten or the turn budget is spent.  Several parties write
    the gate's fields between calls.  `Gate` is the value of all its fields
    and `Step` the effect of one atomic write; `AdmissionController` is the
    mutable object, each of whose methods performs one `Step`. */
module AdmissionGate {
  import opened Prelude
  import opened VisibleHistory

  datatype Ended = Natural | Cap | Timeout | Error

  datatype Invalid = Audit(audit: AuditReason) | Quiescence | EventFrame

  /** The argument of `halt`: an invalidating reason, or a plain ending. */
  datatype HaltReason = Because(invalid: Invalid) | Ending(ended: Ended)

  /** An admitted call: its prompt, its number within the prompt, its context. */
  datatype Gated = Gated(turnId: string, loop: int, messages: seq<Message>)

  datatype Gate = Gate(
    closed: bool,
    explicitlyClosed: bool,
    halted: bool,
    loopsStarted: int,
    loopsCompleted: int,
    cumulativeLoopsStarted: int,
    contexts: seq<Gated>,
    ended: Option<Ended>,
    invalid: Option<Invalid>,
    turnId: string,
    maxTurns: int,
    deadline: Option<int>,
    lastPrefix: Option<Prefix>,
    messageStartIndex: nat)

  const INITIAL: Gate :=
    Gate(true, false, false, 0, 0, 0, [], None, None, "", 0, None, None, 0)

  datatype Op =
    | BeginPrompt(turnId: string, maxTurns: int, timeoutSeconds: Option<int>, start: nat, now: int)
    | Close
    | Halt(reason: HaltReason)
    | MarkLoopCompleted
    | ModelCall(messages: seq<Message>, aborted: bool, now: int)
    | RecordSettled(state: seq<Message>)
    | WriteEnded(ended: Option<Ended>)  // the session driver assigns `ended` directly

  // ---------- One step ----------

  predicate Unusable(g: Gate) {
    g.halted || (g.invalid.Some? && g.invalid.value != Quiescence)
  }

  function Begun(g: Gate, op: Op): Gate
    requires op.BeginPrompt?
  {
    if Unusable(g) then g.(closed := true, halted := true, ended := Some(Error))
    else
      g.(closed := false,
      explicitlyClosed := false,
      turnId := op.turnId,
      maxTurns := op.maxTurns,
      loopsStarted := 0,
      loopsCompleted := 0,
      ended := None,
      messageStartIndex := op.start,
      deadline := if op.timeoutSeconds.Some? then Some(op.now + op.timeoutSeconds.value * 1000) else None)
  }

  function Shut(g: Gate): Gate {
    g.(closed := true, explicitlyClosed := true)
  }

  function Halted(g: Gate, reason: HaltReason): Gate {
    var h := g.(halted := true, closed := true, explicitlyClosed := true);
    match reason
    case Because(invalid) => h.(ended := Some(Error), invalid := Some(invalid))
    case Ending(ended) => h.(ended := Some(ended))
  }

  ghost function AuditOf(g: Gate, messages: seq<Message>): Verdict {
    if g.lastPrefix.Some? then AuditSpec(g.lastPrefix.value, messages) else Retained
  }

  ghost predicate Admits(g: Gate, op: Op)
    requires op.ModelCall?
  {
    && !g.halted && !g.closed && !op.aborted
    && (g.deadline.Some? ==> op.now < g.deadline.value)
    && AuditOf(g, op.messages) == Retained
    && g.loopsStarted < g.maxTurns
  }

  ghost function Called(g: Gate, op: Op): Gate
    requires op.ModelCall?
  {
    if g.halted || g.closed then (if g.ended.None? then g.(ended := Some(Error)) else g)
    else if op.aborted then Shut(if g.ended.None? then g.(ended := Some(Timeout)) else g)
    else if g.deadline.Some? && op.now >= g.deadline.value then Shut(g.(ended := Some(Timeout)))
    else if AuditOf(g, op.messages).Refused? then
      Shut(g.(invalid := Some(Audit(AuditOf(g, op.messages).reason)), ended := Some(Error), halted := true))
    else if g.loopsStarted >= g.maxTurns then Shut(g.(ended := Some(Cap)))
    else
      g.(loopsStarted := g.loopsStarted + 1,
      cumulativeLoopsStarted := g.cumulativeLoopsStarted + 1,
      contexts := g.contexts + [Gated(g.turnId, g.loopsStarted + 1, op.messages)],
      lastPrefix := Some(PrefixOf(op.messages)))
  }

  /** The assistant turns among the first `n` settled that `known` does not contain, in order. */
  function NewReplies(known: seq<Turn>, settled: seq<Turn>, n: nat): seq<Turn>
    requires n <= |settled|
  {
    if n == 0 then []
    else
      NewReplies(known, settled, n - 1) +
      (if settled[n - 1].role == Assistant && settled[n - 1] !in known then [settled[n - 1]] else [])
  }

  function Baseline(admitted: Option<Prefix>, state: seq<Message>): Prefix {
    var settled := PrefixOf(state);
    if admitted.None? then settled
    else
      Prefix(admitted.value.turns + NewReplies(admitted.value.turns, settled.turns, |settled.turns|),
             if settled.model.Some? then settled.model else admitted.value.model)
  }

  function Settled(g: Gate, state: seq<Message>): Gate {
    g.(lastPrefix := Some(Baseline(g.lastPrefix, state)))
  }

  function LoopDone(g: Gate): Gate {
    if g.loopsCompleted < g.loopsStarted then g.(loopsCompleted := g.loopsCompleted + 1) else g
  }

  ghost function Step(g: Gate, op: Op): Gate {
    match op
    case BeginPrompt(_, _, _, _, _) => Begun(g, op)
    case Close => Shut(g)
    case Halt(reason) => Halted(g, reason)
    case MarkLoopCompleted => LoopDone(g)
    case ModelCall(_, _, _) => Called(g, op)
    case RecordSettled(state) => Settled(g, state)
    case WriteEnded(ended) => g.(ended := ended)
  }

  /** The gate after the first `n` of `ops`, by any parties in any order. */
  ghost function Run(g: Gate, ops: seq<Op>, n: nat): Gate
    requires n <= |ops|
  {
    if n == 0 then g else Step(Run(g, ops, n - 1), ops[n - 1])
  }

  // ---------- What every step keeps ----------

  function Budget(g: Gate): int {
    if g.maxTurns < 0 then 0 else g.maxTurns
  }

  ghost predicate Counters(g: Gate) {
    && 0 <= g.loopsCompleted <= g.loopsStarted <= Budget(g)
    && g.cumulativeLoopsStarted == |g.contexts|
    && g.loopsStarted <= |g.contexts|
  }

  ghost predicate Latches(g: Gate) {
    && (g.invalid.Some? ==> g.halted)
    && (g.halted ==> g.closed)
  }

  /** The admitted contexts fall into runs numbered 1, 2, 3 ..., one run per prompt. */
  ghost predicate Numbered(contexts: seq<Gated>) {
    && (contexts != [] ==> contexts[0].loop == 1)
    && (forall i, j :: 0 <= i < j < |contexts| && j == i + 1 ==>
      contexts[j].loop == 1 || (contexts[j].loop == contexts[i].loop + 1 && contexts[j].turnId == contexts[i].turnId))
  }

  /** The last `loopsStarted` contexts are the current prompt's, numbered from 1. */
  ghost predicate CurrentRun(g: Gate) {
    forall i :: |g.contexts| - g.loopsStarted <= i < |g.contexts| && 0 <= i ==>
      g.contexts[i].turnId == g.turnId && g.contexts[i].loop == i - (|g.contexts| - g.loopsStarted) + 1
  }

  /** Every admitted context retains every earlier one, and the baseline retains them all. */
  ghost predicate HistoryChain(g: Gate) {
    && (g.contexts != [] ==> g.lastPrefix.Some?)
    && (forall i :: 0 <= i < |g.contexts| ==> Retains(TurnsOf(g.contexts[i].messages), g.lastPrefix.value.turns))
    && (forall i, j :: 0 <= i <= j < |g.contexts| ==>
      Retains(TurnsOf(g.contexts[i].messages), TurnsOf(g.contexts[j].messages)))
  }

  ghost predicate GateInv(g: Gate) {
    Counters(g) && Latches(g) && Numbered(g.contexts) && CurrentRun(g) && HistoryChain(g)
  }

  lemma {:induction false} AdmissionKeepsNumbers(g: Gate, op: Op)
    requires Counters(g) && Numbered(g.contexts) && CurrentRun(g) && op.ModelCall? && Admits(g, op)
    ensures Counters(Called(g, op)) && Numbered(Called(g, op).contexts) && CurrentRun(Called(g, op))
  {
    var k := |g.contexts|;
    var after := Called(g, op).contexts;
    assert after[k] == Gated(g.turnId, g.loopsStarted + 1, op.messages);
    if g.loopsStarted > 0 {
      assert g.contexts[k - 1].turnId == g.turnId && g.contexts[k - 1].loop == g.loopsStarted;
    }
  }

  lemma {:induction false} AdmissionKeepsHistory(g: Gate, op: Op)
    requires HistoryChain(g) && op.ModelCall? && Admits(g, op)
    ensures HistoryChain(Called(g, op))
  {
    var now := TurnsOf(op.messages);
    var k := |g.contexts|;
    var after := Called(g, op);
    assert after.lastPrefix == Some(PrefixOf(op.messages)) && after.contexts[k].messages == op.messages;
    forall i | 0 <= i <= k
      ensures Retains(TurnsOf(after.contexts[i].messages), now)
    {
      if i == k {
        RetainsReflexive(now);
      } else {
        var baseline := g.lastPrefix.value.turns;
        GreedyIsExact(baseline, now);
        RetainsTransitive(TurnsOf(g.contexts[i].messages), baseline, now);
      }
    }
  }

  lemma {:induction false} SettledKeepsInvariant(g: Gate, state: seq<Message>)
    requires GateInv(g)
    ensures GateInv(Settled(g, state))
  {
    if g.lastPrefix.Some? {
      var baseline := g.lastPrefix.value.turns;
      var replies := NewReplies(baseline, TurnsOf(state), |TurnsOf(state)|);
      forall i | 0 <= i < |g.contexts|
        ensures Retains(TurnsOf(g.contexts[i].messages), baseline + replies)
      {
        RetainsExtended(TurnsOf(g.contexts[i].messages), baseline, replies);
      }
    }
  }

  lemma {:induction false} CalledKeepsInvariant(g: Gate, op: Op)
    requires GateInv(g) && op.ModelCall?
    ensures GateInv(Called(g, op))
  {
    if Admits(g, op) {
      AdmissionKeepsNumbers(g, op);
      AdmissionKeepsHistory(g, op);
    } else {
      FlagsKeepInvariant(g, Called(g, op));
    }
  }

  lemma {:induction false} BegunKeepsInvariant(g: Gate, op: Op)
    requires GateInv(g) && op.BeginPrompt?
    ensures GateInv(Begun(g, op))
  {
  }

  /** `h` differs from `g` only in flags, endings or a completed loop. */
  lemma {:induction false} FlagsKeepInvariant(g: Gate, h: Gate)
    requires GateInv(g) && Latches(h)
    requires h.contexts == g.contexts && h.lastPrefix == g.lastPrefix && h.turnId == g.turnId
    requires h.cumulativeLoopsStarted == g.cumulativeLoopsStarted
    requires h.maxTurns == g.maxTurns && h.loopsStarted == g.loopsStarted
    requires g.loopsCompleted <= h.loopsCompleted <= h.loopsStarted
    ensures GateInv(h)
  {
  }

  lemma {:induction false} StepKeepsInvariant(g: Gate, op: Op)
    requires GateInv(g)
    ensures GateInv(Step(g, op))
  {
    match op
    case BeginPrompt(_, _, _, _, _) => BegunKeepsInvariant(g, op);
    case ModelCall(_, _, _) => CalledKeepsInvariant(g, op);
    case RecordSettled(state) => SettledKeepsInvariant(g, state);
    case Close => FlagsKeepInvariant(g, Shut(g));
    case Halt(reason) => FlagsKeepInvariant(g, Halted(g, reason));
    case MarkLoopCompleted => FlagsKeepInvariant(g, LoopDone(g));
    case WriteEnded(ended) => FlagsKeepInvariant(g, g.(ended := ended));
  }

  lemma {:induction false} RunKeepsInvariant(g: Gate, ops: seq<Op>, n: nat)
    requires n <= |ops| && GateInv(g)
    ensures GateInv(Run(g, ops, n))
  {
    if n > 0 {
      RunKeepsInvariant(g, ops, n - 1);
      StepKeepsInvariant(Run(g, ops, n - 1), ops[n - 1]);
    }
  }

  /** Budget, latches, numbering and history hold in every reachable state. */
  lemma {:induction false} ReachableInvariant(ops: seq<Op>, n: nat)
    requires n <= |ops|
    ensures GateInv(Run(INITIAL, ops, n))
  {
    RunKeepsInvariant(INITIAL, ops, n);
  }

  /** Over any run, the visible turns of an admitted context are an ordered
      subsequence of those of every context admitted later. */
  lemma {:induction false} AdmittedHistoryIsMonotone(ops: seq<Op>, n: nat, i: nat, j: nat)
    requires n <= |ops| && i <= j < |Run(INITIAL, ops, n).contexts|
    ensures var contexts := Run(INITIAL, ops, n).contexts;
            Embeds(TurnsOf(contexts[i].messages), TurnsOf(contexts[j].messages))
  {
    ReachableInvariant(ops, n);
    var contexts := Run(INITIAL, ops, n).contexts;
    GreedyIsExact(TurnsOf(contexts[i].messages), TurnsOf(contexts[j].messages));
  }

  // ---------- Consequences over runs ----------

  lemma {:induction false} AppendsAtMostTheCall(g: Gate, op: Op)
    ensures Step(g, op).contexts ==
            if op.ModelCall? && Admits(g, op) then g.contexts + [Gated(g.turnId, g.loopsStarted + 1, op.messages)]
            else g.contexts
  {
  }

  /** Once halted, always halted, and the list of admitted contexts is final. */
  lemma {:induction false} HaltIsFinal(g: Gate, ops: seq<Op>, n: nat)
    requires n <= |ops| && Latches(g) && g.halted
    ensures var later := Run(g, ops, n);
            && later.halted && Latches(later) && later.contexts == g.contexts
            && (g.invalid.Some? ==> later.invalid.Some?)
  {
    if n > 0 {
      HaltIsFinal(g, ops, n - 1);
      AppendsAtMostTheCall(Run(g, ops, n - 1), ops[n - 1]);
    }
  }

  /** A closed gate admits nothing until the next prompt begins. */
  lemma {:induction false} ClosedAdmitsNothing(g: Gate, ops: seq<Op>, n: nat)
    requires n <= |ops| && g.closed && forall k :: 0 <= k < |ops| ==> !ops[k].BeginPrompt?
    ensures var later := Run(g, ops, n);
            later.closed && later.contexts == g.contexts && later.loopsStarted == g.loopsStarted
  {
    if n > 0 {
      ClosedAdmitsNothing(g, ops, n - 1);
      AppendsAtMostTheCall(Run(g, ops, n - 1), ops[n - 1]);
    }
  }

  /** A call adds a context exactly when every test passes, and a refused call
      always leaves the gate shut with an ending recorded. */
  lemma {:induction false} CallAdmitsExactlyWhen(g: Gate, op: Op)
    requires op.ModelCall?
    ensures |Called(g, op).contexts| == |g.contexts| + 1 <==> Admits(g, op)
    ensures !Admits(g, op) ==>
      && Called(g, op).contexts == g.contexts
      && (Called(g, op).closed || Called(g, op).halted)
      && Called(g, op).ended.Some?
    ensures g.halted || g.closed ==> Called(g, op) == if g.ended.Some? then g else g.(ended := Some(Error))
  {
  }

  /** Until the next prompt begins, its deadline and its budget stand, and as long as it
      has admitted nothing so does its count of loops. */
  lemma {:induction false} PromptStands(g: Gate, ops: seq<Op>, n: nat)
    requires n <= |ops| && forall k :: 0 <= k < |ops| ==> !ops[k].BeginPrompt?
    ensures var later := Run(g, ops, n);
            && later.deadline == g.deadline && later.maxTurns == g.maxTurns && later.turnId == g.turnId
            && |later.contexts| >= |g.contexts|
            && later.loopsStarted - g.loopsStarted == |later.contexts| - |g.contexts|
  {
    if n > 0 {
      PromptStands(g, ops, n - 1);
      AppendsAtMostTheCall(Run(g, ops, n - 1), ops[n - 1]);
    }
  }

  /** When the deadline of a prompt falls.  Whatever happens after a usable gate has begun
      a prompt of `turns` calls and perhaps `t` seconds: an unaborted call with a retained
      history that finds the gate open and fewer than `turns` contexts admitted since is
      admitted exactly when it comes less than `t` seconds after the beginning, and is
      refused as a timeout from then on. */
  lemma {:induction false} DeadlineFallsAfterSeconds(g: Gate, id: string, turns: int, timeoutSeconds: Option<int>,
        start: nat, now: int, ops: seq<Op>, n: nat, messages: seq<Message>, at: int)
    requires !g.halted && (g.invalid.None? || g.invalid == Some(Quiescence))
    requires n <= |ops| && forall k :: 0 <= k < |ops| ==> !ops[k].BeginPrompt?
    ensures var begun := Step(g, Op.BeginPrompt(id, turns, timeoutSeconds, start, now));
            var before := Run(begun, ops, n);
            var after := Step(before, ModelCall(messages, false, at));
            (&& !before.halted && !before.closed && |before.contexts| - |g.contexts| < turns
             && (before.lastPrefix.Some? ==> AuditSpec(before.lastPrefix.value, messages) == Retained)) ==>
              && (|after.contexts| == |before.contexts| + 1 <==>
                timeoutSeconds.None? || at < now + 1000 * timeoutSeconds.value)
              && (timeoutSeconds.Some? && at >= now + 1000 * timeoutSeconds.value ==>
                after.contexts == before.contexts && after.closed && after.ended == Some(Timeout))
  {
    PromptStands(Step(g, Op.BeginPrompt(id, turns, timeoutSeconds, start, now)), ops, n);
  }

  /** What a beginning makes of a gate.  A halted or invalid one stays shut and has ended in
      an error.  A usable one lets the first call through, as loop 1 of the new prompt, if
      the prompt may call at all, is not out of time and retains the history. */
  lemma {:induction false} BeginningTells(g: Gate, id: string, turns: int, timeoutSeconds: Option<int>, start: nat,
                                          now: int, messages: seq<Message>)
    ensures var begun := Step(g, Op.BeginPrompt(id, turns, timeoutSeconds, start, now));
            var called := Step(begun, ModelCall(messages, false, now));
            if g.halted || (g.invalid.Some? && g.invalid != Some(Quiescence)) then
              begun.closed && begun.halted && begun.ended == Some(Error) && called.contexts == g.contexts
            else
              && begun.ended.None? && begun.loopsCompleted == 0 && begun.messageStartIndex == start
              && begun.invalid == g.invalid && !begun.explicitlyClosed
              && called.contexts ==
                 if turns > 0 && (timeoutSeconds.Some? ==> timeoutSeconds.value > 0)
                    && (g.lastPrefix.Some? ==> AuditSpec(g.lastPrefix.value, messages) == Retained) then
                   g.contexts + [Gated(id, 1, messages)]
                 else g.contexts
  {
  }

  /** What a call that the open gate refuses leaves behind: only a lost history halts and
      invalidates; an abort and a passed deadline end in a timeout, where an abort does not
      overwrite an ending, and a spent budget ends in a cap. */
  lemma {:induction false} RefusalTells(g: Gate, messages: seq<Message>, aborted: bool, at: int)
    requires !g.halted && !g.closed
    ensures var called := Step(g, ModelCall(messages, aborted, at));
            var late := g.deadline.Some? && g.deadline.value <= at;
            var lost := g.lastPrefix.Some? && AuditSpec(g.lastPrefix.value, messages) != Retained;
            && (called.halted <==> !aborted && !late && lost)
            && (called.halted ==>
              && called.invalid == Some(Audit(AuditSpec(g.lastPrefix.value, messages).reason))
              && called.ended == Some(Error))
            && (!called.halted ==> called.invalid == g.invalid)
            && (aborted ==> called.ended == if g.ended.Some? then g.ended else Some(Timeout))
            && (!aborted && late ==> called.ended == Some(Timeout))
            && (!aborted && !late && !lost && g.loopsStarted >= g.maxTurns ==> called.ended == Some(Cap))
            && (called.closed <==> aborted || late || lost || g.loopsStarted >= g.maxTurns)
            && (!called.closed ==>
              && called.ended == g.ended && called.lastPrefix == Some(PrefixOf(messages))
              && called.contexts == g.contexts + [Gated(g.turnId, g.loopsStarted + 1, messages)])
  {
  }

  /** What halting leaves behind: the gate is halted and shut; an invalidation is an error
      and is kept, and a plain ending is all that another reason records. */
  lemma {:induction false} HaltTells(g: Gate, invalid: Invalid, ended: Ended)
    ensures var h := Step(g, Halt(Because(invalid)));
            && h.halted && h.closed && h.explicitlyClosed && h.contexts == g.contexts
            && h.ended == Some(Error) && h.invalid == Some(invalid)
    ensures var h := Step(g, Halt(Ending(ended)));
            && h.halted && h.closed && h.explicitlyClosed && h.contexts == g.contexts
            && h.ended == Some(ended) && h.invalid == g.invalid
    ensures Step(g, Close).closed && Step(g, Close).explicitlyClosed && Step(g, Close).halted == g.halted
    ensures Step(g, MarkLoopCompleted).loopsCompleted ==
            if g.loopsCompleted < g.loopsStarted then g.loopsCompleted + 1 else g.loopsCompleted
  {
  }

  /** The exemption for `quiescence` in the usability test never matters: in
      every reachable state the test is just `halted`. */
  lemma {:induction false} QuiescenceExemptionIsDead(ops: seq<Op>, n: nat)
    requires n <= |ops|
    ensures var g := Run(INITIAL, ops, n); Unusable(g) <==> g.halted
  {
    ReachableInvariant(ops, n);
  }

  // ---------- The audit baseline after a settle ----------

  lemma {:induction false} NewRepliesMembers(known: seq<Turn>, settled: seq<Turn>, n: nat, k: nat)
    requires k < n <= |settled| && settled[k].role == Assistant && settled[k] !in known
    ensures settled[k] in NewReplies(known, settled, n)
  {
    if k < n - 1 {
      NewRepliesMembers(known, settled, n - 1, k);
    }
  }

  /** No context admitted after a settle drops the text of a reply that settled. */
  lemma {:induction false} SettledRepliesSurvive(g: Gate, state: seq<Message>, ops: seq<Op>, n: nat, turn: Turn, k: nat)
    requires n <= |ops| && turn.role == Assistant && turn in TurnsOf(state)
    requires |g.contexts| <= k < |Run(Step(g, RecordSettled(state)), ops, n).contexts|
    ensures turn in TurnsOf(Run(Step(g, RecordSettled(state)), ops, n).contexts[k].messages)
  {
    var settled := Step(g, RecordSettled(state));
    assert turn in Baseline(g.lastPrefix, state).turns by {
      if g.lastPrefix.Some? && turn !in g.lastPrefix.value.turns {
        var i :| 0 <= i < |TurnsOf(state)| && TurnsOf(state)[i] == turn;
        NewRepliesMembers(g.lastPrefix.value.turns, TurnsOf(state), |TurnsOf(state)|, i);
      }
    }
    BaselineSurvives(settled, ops, n, turn, k);
  }

  lemma {:induction false} BaselineSurvivesStep(g: Gate, op: Op, turn: Turn)
    requires g.lastPrefix.Some? && turn in g.lastPrefix.value.turns
    ensures Step(g, op).lastPrefix.Some? && turn in Step(g, op).lastPrefix.value.turns
    ensures op.ModelCall? && Admits(g, op) ==> turn in TurnsOf(op.messages)
  {
    if op.ModelCall? && Admits(g, op) {
      GreedyIsExact(g.lastPrefix.value.turns, TurnsOf(op.messages));
      RetainedTurnSurvives(turn, g.lastPrefix.value.turns, TurnsOf(op.messages));
    }
  }

  lemma {:induction false} BaselineSurvives(g: Gate, ops: seq<Op>, n: nat, turn: Turn, k: nat)
    requires n <= |ops| && g.lastPrefix.Some? && turn in g.lastPrefix.value.turns
    ensures Run(g, ops, n).lastPrefix.Some? && turn in Run(g, ops, n).lastPrefix.value.turns
    ensures |g.contexts| <= k < |Run(g, ops, n).contexts| ==> turn in TurnsOf(Run(g, ops, n).contexts[k].messages)
  {
    if n > 0 {
      var before, op := Run(g, ops, n - 1), ops[n - 1];
      BaselineSurvives(g, ops, n - 1, turn, k);
      BaselineSurvivesStep(before, op, turn);
      AppendsAtMostTheCall(before, op);
    }
  }

  /** The assistant turns among the first `n`. */
  function Replies(turns: seq<Turn>, n: nat): seq<Turn>
    requires n <= |turns|
  {
    NewReplies([], turns, n)
  }

  /** The baseline gains a reply only if no turn it already holds has the same
      text.  When the settled state is the admitted history followed by `recent`,
      it gains every recent reply exactly when none repeats an admitted turn. */
  lemma {:induction false} BaselineGainsEveryReplyIff(admitted: Prefix, state: seq<Message>, recent: seq<Turn>)
    requires TurnsOf(state) == admitted.turns + recent
    ensures Baseline(Some(admitted), state).turns == admitted.turns + Replies(recent, |recent|) <==>
            (forall turn :: turn in recent && turn.role == Assistant ==> turn !in admitted.turns)
  {
    var known := admitted.turns;
    var gained := NewReplies(known, known + recent, |known + recent|);
    NewRepliesBeyond(known, recent, |recent|);
    NewRepliesCount(known, recent, |recent|);
    assert Baseline(Some(admitted), state).turns == known + gained;
    if gained != Replies(recent, |recent|) {
      assert |known + gained| != |known + Replies(recent, |recent|)|;
    }
  }

  lemma {:induction false} NewRepliesBeyond(known: seq<Turn>, recent: seq<Turn>, n: nat)
    requires n <= |recent|
    ensures NewReplies(known, known + recent, |known| + n) == NewReplies(known, recent, n)
  {
    if n > 0 {
      NewRepliesBeyond(known, recent, n - 1);
      assert (known + recent)[|known| + n - 1] == recent[n - 1];
    } else {
      NoneNew(known, known + recent, |known|);
    }
  }

  lemma {:induction false} NoneNew(known: seq<Turn>, turns: seq<Turn>, n: nat)
    requires n <= |turns| && forall k :: 0 <= k < n ==> turns[k] in known
    ensures NewReplies(known, turns, n) == []
  {
    if n > 0 {
      NoneNew(known, turns, n - 1);
    }
  }

  lemma {:induction false} NewRepliesCount(known: seq<Turn>, turns: seq<Turn>, n: nat)
    requires n <= |turns|
    ensures |NewReplies(known, turns, n)| <= |Replies(turns, n)|
    ensures |NewReplies(known, turns, n)| == |Replies(turns, n)| <==>
            (forall k :: 0 <= k < n && turns[k].role == Assistant ==> turns[k] !in known)
    ensures |NewReplies(known, turns, n)| == |Replies(turns, n)| ==> NewReplies(known, turns, n) == Replies(turns, n)
  {
    if n > 0 {
      NewRepliesCount(known, turns, n - 1);
    }
  }

  lemma {:induction false} RepeatIsDropped(admitted: Prefix, turn: Turn, state: seq<Message>, next: seq<Message>)
    requires admitted.turns == [turn] && TurnsOf(state) == [turn, turn] && TurnsOf(next) == [turn]
    requires ModelOf(next).None?
    ensures AuditSpec(Baseline(Some(admitted), state), next) == Retained
  {
    NoneNew([turn], [turn, turn], 2);
    assert Baseline(Some(admitted), state).turns == [turn];
    RetainsReflexive([turn]);
    GreedyIsExact([turn], [turn]);
  }

  /** Two prompts with one call each, which shows the same context; `state` settles in between. */
  function TwoPrompts(context: seq<Message>, state: seq<Message>): (ops: seq<Op>)
    ensures |ops| == 5
  {
    [BeginPrompt("a", 1, None, 0, 0), ModelCall(context, false, 0), RecordSettled(state),
     BeginPrompt("b", 1, None, |state|, 0), ModelCall(context, false, 0)]
  }

  /** A repeated reply can therefore be dropped unnoticed: a session that shows one
      "ok" says "ok" again, both settle, and the next prompt's context, which shows
      only one of them, is admitted. */
  lemma {:induction false} RepeatedReplyCanBeDropped()
    ensures var ok := Shown(Turn(Assistant, "ok"));
            var g := Run(INITIAL, TwoPrompts([ok], [ok, ok]), 5);
            && TurnsOf([ok]) == [Turn(Assistant, "ok")]
            && TurnsOf([ok, ok]) == [Turn(Assistant, "ok"), Turn(Assistant, "ok")]
            && |g.contexts| == 2 && g.contexts[1].messages == [ok] && !g.halted
  {
    var turn := Turn(Assistant, "ok");
    var ok := Shown(turn);
    SnocShows([], turn);
    SnocShows([ok], turn);
    ProjectionOfSnoc([], ok);
    assert [] + [ok] == [ok] && [ok] + [ok] == [ok, ok];
    RepeatIsDropped(PrefixOf([ok]), turn, [ok, ok], [ok]);
    TwoPromptsRun([ok], [ok, ok]);
  }

  lemma {:induction false} TwoPromptsRun(context: seq<Message>, state: seq<Message>)
    requires AuditSpec(Baseline(Some(PrefixOf(context)), state), context) == Retained
    ensures var g := Run(INITIAL, TwoPrompts(context, state), 5);
            |g.contexts| == 2 && g.contexts[1].messages == context && !g.halted
  {
    var ops := TwoPrompts(context, state);
    var g0, g1, g2, g3 := Run(INITIAL, ops, 0), Run(INITIAL, ops, 1), Run(INITIAL, ops, 2), Run(INITIAL, ops, 3);
    assert g1 == Step(g0, ops[0]);
    assert g2 == Step(g1, ops[1]);
    assert |g2.contexts| == 1 && g2.lastPrefix == Some(PrefixOf(context));
    assert g3 == Step(g2, ops[2]);
    assert Run(INITIAL, ops, 4) == Step(g3, ops[3]);
    assert AuditOf(Run(INITIAL, ops, 4), context) == Retained;
  }

  /** Between two admitted calls with one settle, the model can change unnoticed
      exactly when the settled state already names the other model: the settle
      replaces the model of the baseline. */
  lemma {:induction false} ModelSwitchUndetectedIff(first: seq<Message>, state: seq<Message>)
    ensures (exists second: seq<Message> ::
               && AuditSpec(Baseline(Some(PrefixOf(first)), state), second) == Retained
               && ModelsConflict(ModelOf(first), ModelOf(second)))
            <==> ModelsConflict(ModelOf(first), ModelOf(state))
  {
    var baseline := Baseline(Some(PrefixOf(first)), state);
    if ModelsConflict(ModelOf(first), ModelOf(state)) {
      var second := FaithfulSuccessor(baseline);
    } else {
      ModelIsNamed(first, |first|);
      ModelIsNamed(state, |state|);
    }
  }

  /** Every baseline that names a model is passed by some context that names it too. */
  lemma {:induction false} FaithfulSuccessor(baseline: Prefix) returns (next: seq<Message>)
    requires baseline.model.Some? && baseline.model.value != ""
    ensures ModelOf(next) == baseline.model && AuditSpec(baseline, next) == Retained
  {
    var shown := Replay(baseline.turns, |baseline.turns|);
    var last := AssistantMessage(NoContent, baseline.model);
    next := shown + [last];
    ProjectionOfSnoc(shown, last);
    assert TurnsOf(next) == baseline.turns;
    RetainsReflexive(baseline.turns);
    GreedyIsExact(baseline.turns, baseline.turns);
  }

  lemma {:induction false} ModelIsNamed(messages: seq<Message>, n: nat)
    requires n <= |messages|
    ensures ModelUpTo(messages, n).Some? ==> ModelUpTo(messages, n).value != ""
  {
    if n > 0 {
      ModelIsNamed(messages, n - 1);
    }
  }

  function Shown(turn: Turn): Message {
    var content := Blocks([TextBlock(turn.text)]);
    if turn.role == User then UserMessage(content) else AssistantMessage(content, None)
  }

  lemma {:induction false} ShownShows(turn: Turn)
    ensures TurnsOfMessage(Shown(turn)) == [turn]
  {
    var blocks := [TextBlock(turn.text)];
    assert BlockTexts(blocks, 1) == BlockTexts(blocks, 0) + [turn.text];
    assert TextsOf(Blocks(blocks)) == [turn.text];
    assert Spoken(turn.role, [turn.text], 1) == Spoken(turn.role, [turn.text], 0) + [turn];
  }

  lemma {:induction false} SnocShows(messages: seq<Message>, turn: Turn)
    ensures TurnsOf(messages + [Shown(turn)]) == TurnsOf(messages) + [turn]
  {
    ShownShows(turn);
    ProjectionOfSnoc(messages, Shown(turn));
  }

  /** Messages that show exactly the first `n` turns. */
  lemma {:induction false} Replay(turns: seq<Turn>, n: nat) returns (messages: seq<Message>)
    requires n <= |turns|
    ensures TurnsOf(messages) == turns[..n]
  {
    messages := [];
    if n > 0 {
      var shown := Replay(turns, n - 1);
      messages := shown + [Shown(turns[n - 1])];
      SnocShows(shown, turns[n - 1]);
      assert turns[..n] == turns[..n - 1] + [turns[n - 1]];
    }
  }

  function ReasonName(reason: AuditReason): string {
    match reason
    case Compaction => "compaction"
    case Truncation => "truncation"
    case ModelSwitch => "model_switch"
  }

  // ---------- The mutable controller ----------

  class AdmissionController {
    var closed: bool
    var explicitlyClosed: bool
    var halted: bool
    var loopsStarted: int
    var loopsCompleted: int
    var cumulativeLoopsStarted: int
    var contexts: seq<Gated>
    var ended: Option<Ended>
    var invalid: Option<Invalid>
    var turnId: string
    var maxTurns: int
    var deadline: Option<int>
    var lastPrefix: Option<Prefix>
    var messageStartIndex: nat

    /** The value of all fields. */
    function View(): Gate
      reads this
    {
      Gate(closed, explicitlyClosed, halted, loopsStarted, loopsCompleted, cumulativeLoopsStarted, contexts,
           ended, invalid, turnId, maxTurns, deadline, lastPrefix, messageStartIndex)
    }

    constructor ()
      ensures View() == INITIAL
    {
      closed, explicitlyClosed, halted := true, false, false;
      loopsStarted, loopsCompleted, cumulativeLoopsStarted := 0, 0, 0;
      contexts, ended, invalid, turnId, maxTurns := [], None, None, "", 0;
      deadline, lastPrefix, messageStartIndex := None, None, 0;
    }

    /** A usable gate lets calls through again, with a new budget. */
    method Reopen(id: string, turns: int)
      modifies this`closed, this`explicitlyClosed, this`ended, this`turnId, this`maxTurns
      ensures View() == old(View()).(closed := false, explicitlyClosed := false, ended := None, turnId := id,
                                     maxTurns := turns)
    {
      closed, explicitlyClosed, ended := false, false, None;
      turnId, maxTurns := id, turns;
    }

    method BeginPrompt(id: string, turns: int, timeoutSeconds: Option<int>, start: nat, now: int)
      modifies this
      ensures View() == Begun(old(View()), Op.BeginPrompt(id, turns, timeoutSeconds, start, now))
    {
      if halted || (invalid.Some? && invalid.value != Quiescence) {
        closed := true;
        halted := true;
        ended := Some(Error);
        return;
      }
      Reopen(id, turns);
      loopsStarted := 0;
      loopsCompleted := 0;
      messageStartIndex := start;
      deadline := if timeoutSeconds.Some? then Some(now + timeoutSeconds.value * 1000) else None;
    }

    method Close()
      modifies this
      ensures View() == Shut(old(View()))
    {
      closed := true;
      explicitlyClosed := true;
    }

    method Halt(reason: HaltReason)
      modifies this
      ensures View() == Halted(old(View()), reason)
    {
      halted := true;
      closed := true;
      explicitlyClosed := true;
      match reason {
        case Because(why) =>
          ended := Some(Error);
          invalid := Some(why);
        case Ending(how) =>
          ended := Some(how);
      }
    }

    method MarkLoopCompleted()
      modifies this
      ensures View() == LoopDone(old(View()))
    {
      if loopsCompleted < loopsStarted {
        loopsCompleted := loopsCompleted + 1;
      }
    }

    method WriteEnded(how: Option<Ended>)
      modifies this
      ensures View() == old(View()).(ended := how)
    {
      ended := how;
    }

    method RecordSettledMessages(state: seq<Message>)
      modifies this
      ensures View() == Settled(old(View()), state)
    {
      var settled := VisiblePrefixFromMessages(state);
      if lastPrefix.None? {
        lastPrefix := Some(settled);
        return;
      }
      var admitted := lastPrefix.value;
      var known := KeysOf(admitted.turns);
      var turns := admitted.turns;
      for i := 0 to |settled.turns|
        invariant turns == admitted.turns + NewReplies(admitted.turns, settled.turns, i)
      {
        var turn := settled.turns[i];
        if turn.role == Assistant && Key(turn) !in known {
          turns := turns + [turn];
        }
      }
      lastPrefix := Some(Prefix(turns, if settled.model.Some? then settled.model else admitted.model));
    }

    /** Counts the call, keeps its context and takes its history as the new baseline. */
    method Admit(messages: seq<Message>)
      modifies this`loopsStarted, this`cumulativeLoopsStarted, this`contexts, this`lastPrefix
      ensures View() == old(View()).(
              loopsStarted := old(loopsStarted) + 1,
              cumulativeLoopsStarted := old(cumulativeLoopsStarted) + 1,
              contexts := old(contexts) + [Gated(turnId, old(loopsStarted) + 1, messages)],
              lastPrefix := Some(PrefixOf(messages)))
    {
      loopsStarted := loopsStarted + 1;
      cumulativeLoopsStarted := cumulativeLoopsStarted + 1;
      contexts := contexts + [Gated(turnId, loopsStarted, messages)];
      var prefix := VisiblePrefixFromMessages(messages);
      lastPrefix := Some(prefix);
    }

    /** `refused` is the reason handed back to the agent loop, if it must stop. */
    method BeforeModelCall(messages: seq<Message>, aborted: bool, now: int) returns (refused: Option<string>)
      modifies this
      ensures View() == Called(old(View()), ModelCall(messages, aborted, now))
      ensures refused.None? <==> Admits(old(View()), ModelCall(messages, aborted, now))
      ensures refused.Some? ==>
                refused.value == if old(halted) then "halted"
                                 else if old(closed) then "closed"
                                 else if aborted then "aborted"
                                 else if deadline.Some? && now >= deadline.value then "timeout"
                                 else if !halted then "cap"
                                 else if invalid == Some(Audit(Compaction)) then "compaction"
                                 else if invalid == Some(Audit(Truncation)) then "truncation"
                                 else "model_switch"
    {
      if halted || closed {
        if ended.None? {
          ended := Some(Error);
        }
        return Some(if halted then "halted" else "closed");
      }
      if aborted {
        ended := if ended.Some? then ended else Some(Timeout);
        closed, explicitlyClosed := true, true;
        return Some("aborted");
      }
      if deadline.Some? && now >= deadline.value {
        ended := Some(Timeout);
        closed, explicitlyClosed := true, true;
        return Some("timeout");
      }
      if lastPrefix.Some? {
        var audit := AuditVisibleHistory(lastPrefix.value, messages);
        if audit.Refused? {
          invalid := Some(Audit(audit.reason));
          ended := Some(Error);
          halted := true;
          closed, explicitlyClosed := true, true;
          return Some(ReasonName(audit.reason));
        }
      }
      if loopsStarted >= maxTurns {
        ended := Some(Cap);
        closed, explicitlyClosed := true, true;
        return Some("cap");
      }
      Admit(messages);
      refused := None;
    }
  }
}
