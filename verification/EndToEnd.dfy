/** The controller driven by the session driver: settles that `PromptSession`
    hands out become the prompt frames that `ControlledRun` consumes. */
module EndToEnd {
  import opened Prelude
  import opened ExecutionContract
  import C = ControlledRun
  import G = AdmissionGate
  import P = PromptSession

  function EndedText(ended: G.Ended): string {
    match ended
    case Natural => "natural"
    case Cap => "cap"
    case Timeout => "timeout"
    case Error => "error"
  }

  function InvalidText(invalid: G.Invalid): string {
    match invalid
    case Audit(reason) => G.ReasonName(reason)
    case Quiescence => "quiescence"
    case EventFrame => "event_frame"
  }

  /** The parts of a frame's data that come from the settle. */
  ghost predicate Carries(data: C.SettleData, settle: P.Settle) {
    && data.ended == EndedText(settle.ended)
    && data.loopsStarted == settle.loopsStarted && data.loopsCompleted == settle.loopsCompleted
    && data.continuationPossible == settle.continuationPossible && data.ready == settle.ready
    && data.invalid == (if settle.invalid.Some? then Some(InvalidText(settle.invalid.value)) else None)
  }

  /** The driver's answer to a call that threw: a message and a code, and no settle. */
  predicate AnswersWithError(frame: C.Frame) {
    && !frame.success && frame.data.Some?
    && frame.data.value.ended == "" && frame.data.value.invalid.None?
    && frame.data.value.loopsStarted == 0 && frame.data.value.loopsCompleted == 0
  }

  /** Every frame with data is such an answer or carries a settle that the driver
      handed to a caller. */
  ghost predicate DrivenBy(world: C.World, s: P.Session) {
    forall i: nat :: world.reply(i).Reply? && world.reply(i).frame.data.Some? ==>
      || AnswersWithError(world.reply(i).frame)
      || exists k :: 0 <= k < |s.returned| && Carries(world.reply(i).frame.data.value, s.returned[k].settle)
  }

  /** The driver announces a session and contract-typed settings, and clocks tick. */
  ghost predicate WellAnnounced(world: C.World) {
    && (world.init.InitReply? && world.init.success ==>
      && world.init.sessionId != ""
      && (world.init.policy.Some? ==> ValidSettings(world.init.policy.value)))
    && (forall i: nat :: world.startedAt(i) != "" && world.finishedAt(i) != "")
  }

  /** Whatever the interleaving inside the driver, its settles meet what the
      controller relies on. */
  lemma {:induction false} DriverIsGood(world: C.World, events: seq<P.Event>, n: nat, maxTurns: nat)
    requires n <= |events| && forall k :: 0 <= k < n && events[k].StartPrompt? ==> events[k].maxTurns <= maxTurns
    requires DrivenBy(world, P.Run(P.START, events, n)) && WellAnnounced(world)
    ensures C.GoodDriver(world, maxTurns)
  {
    var s := P.Run(P.START, events, n);
    P.SettlesStayWithinBudget(events, n, maxTurns);
    forall i: nat | world.reply(i).Reply?
      ensures var data := C.DataOf(world.reply(i).frame);
              0 <= data.loopsCompleted <= data.loopsStarted <= maxTurns
    {
      if world.reply(i).frame.data.Some? && !AnswersWithError(world.reply(i).frame) {
        var k :| 0 <= k < |s.returned| && Carries(world.reply(i).frame.data.value, s.returned[k].settle);
        assert P.SettleWithin(s.returned[k].settle, maxTurns);
      }
    }
  }

  /** The strongest statement: a valid plan, any interleaving inside the driver whose
      prompts ask for the plan's turn budget, any failure of the outside world and
      any exit path.  The summary passes the shared contract exactly when no attempted
      capture read failed with an empty text. */
  lemma {:induction false} EvidenceIsAcceptedIff(plan: Plan, instruction: string, world: C.World,
                                                 events: seq<P.Event>, n: nat, summary: Summary)
    requires ValidPlan(plan) && summary.model != ""
    requires n <= |events|
    requires forall k :: 0 <= k < n && events[k].StartPrompt? ==> events[k].maxTurns == plan.limits.maxTurns
    requires DrivenBy(world, P.Run(P.START, events, n)) && WellAnnounced(world)
    requires C.SummarizesRun(summary, plan, C.Script(plan, instruction), world)
    ensures ValidSummary(summary) <==>
            C.ReadsHaveText(world, C.Schedule(C.CapturesOf(plan), C.Script(plan, instruction), |summary.messages|),
                            |summary.captures|)
  {
    DriverIsGood(world, events, n, plan.limits.maxTurns);
    C.SummaryIsValidIff(summary, plan, instruction, world);
  }

  /** A driver whose session was invalidated can only stop the controller: every
      frame carrying a settle that was resolved after that moment is fatal. */
  lemma {:induction false} InvalidationStopsTheRun(s: P.Session, events: seq<P.Event>, n: nat, k: nat, frame: C.Frame)
    requires n <= |events| && G.GateInv(s.gate) && s.gate.invalid.Some?
    requires |s.resolved| <= k < |P.Run(s, events, n).resolved|
    requires frame.data.Some? && Carries(frame.data.value, P.Run(s, events, n).resolved[k].settle)
    ensures C.Fatal(frame)
  {
    P.InvalidSessionsOnlyFail(s, events, n);
  }

  /** A settle's `ended` is always one the controller records as it is. */
  lemma {:induction false} SettleEndIsRecorded(data: C.SettleData, settle: P.Settle)
    requires Carries(data, settle)
    ensures C.RecordedEnd(data) == EndedText(settle.ended)
    ensures C.RecordedEnd(data) == "natural" <==> settle.ended == G.Natural
    ensures C.RecordedEnd(data) == "cap" <==> settle.ended == G.Cap
    ensures C.RecordedEnd(data) == "timeout" <==> settle.ended == G.Timeout
    ensures C.RecordedEnd(data) == "error" <==> settle.ended == G.Error
    ensures C.Fatal(C.Frame(true, Some(data))) <==> settle.ended == G.Error || settle.invalid.Some? || !settle.ready
  {
  }

  /** So the one way for a clean run to end as `error`, a last ending that the
      controller does not know, is closed: this driver sends none. */
  lemma {:induction false} DrivenEndIsKnown(world: C.World, s: P.Session, captures: seq<PlanCapture>,
                                            script: seq<PlanTurn>, n: nat)
    requires DrivenBy(world, s) && C.CleanDelivery(world, captures, script, n)
    ensures n > 0 ==> world.reply(n - 1).Reply?
    ensures C.EndOf(world, script, n) != "error"
  {
    C.CleanEndIsErrorIff(world, captures, script, n);
    if n > 0 {
      assert C.TurnClean(world, captures, script, n - 1);
      var frame := world.reply(n - 1).frame;
      assert !AnswersWithError(frame);
      var k :| 0 <= k < |s.returned| && Carries(frame.data.value, s.returned[k].settle);
      SettleEndIsRecorded(frame.data.value, s.returned[k].settle);
    }
  }

  // ---------- Whose loops a record counts ----------

  /** The controller sends a prompt when all earlier ones have been answered, and it
      sends the script's. */
  ghost predicate Sends(s: P.Session, sent: Option<string>, script: seq<PlanTurn>) {
    sent.Some? ==> s.prompt.None? && |s.returned| < |script| && sent.value == script[|s.returned|].id
  }

  function SentBy(e: P.Event): Option<string> {
    if e.StartPrompt? then Some(e.turnId) else None
  }

  ghost predicate SentInOrder(events: seq<P.Event>, n: nat, script: seq<PlanTurn>)
    requires n <= |events|
  {
    n == 0 ||
    (SentInOrder(events, n - 1, script) && Sends(P.Run(P.START, events, n - 1), SentBy(events[n - 1]), script))
  }

  /** The calls answered so far, and the running one, are a prefix of the script. */
  ghost predicate Follows(s: P.Session, script: seq<PlanTurn>) {
    && |s.returned| <= |script|
    && (forall k :: 0 <= k < |s.returned| ==> s.returned[k].turnId == script[k].id)
    && (s.prompt.Some? ==> |s.returned| < |script| && s.prompt.value.turnId == script[|s.returned|].id)
  }

  /** How a step answers and replaces the call that is running after `sent` was sent. */
  ghost predicate TurnPasses(s: P.Session, t: P.Session, sent: Option<string>) {
    var turn := if s.prompt.Some? then Some(s.prompt.value.turnId) else sent;
    && s.returned <= t.returned && |t.returned| <= |s.returned| + 1
    && (t.returned == s.returned ==> t.prompt.Some? ==> turn == Some(t.prompt.value.turnId))
    && (t.returned != s.returned ==> t.prompt.None? && turn == Some(t.returned[|s.returned|].turnId))
  }

  lemma {:induction false} StepPassesTurn(s: P.Session, e: P.Event)
    ensures TurnPasses(s, P.Step(s, e), SentBy(e))
  {
    P.StepAppends(s, e);
    P.StepHandsOut(s, e);
  }

  lemma {:induction false} FollowsOn(s: P.Session, t: P.Session, sent: Option<string>, script: seq<PlanTurn>)
    requires Follows(s, script) && TurnPasses(s, t, sent) && Sends(s, sent, script)
    ensures Follows(t, script)
  {
  }

  lemma {:induction false} RunFollows(events: seq<P.Event>, n: nat, script: seq<PlanTurn>)
    requires n <= |events| && SentInOrder(events, n, script)
    ensures Follows(P.Run(P.START, events, n), script)
  {
    if n > 0 {
      RunFollows(events, n - 1, script);
      var before, e := P.Run(P.START, events, n - 1), events[n - 1];
      StepPassesTurn(before, e);
      FollowsOn(before, P.Step(before, e), SentBy(e), script);
    }
  }

  /** The answer to the `i`-th prompt is an error, or it carries the `i`-th settle. */
  ghost predicate AnsweredInOrder(world: C.World, s: P.Session, script: seq<PlanTurn>) {
    forall i :: 0 <= i < |script| && world.reply(i).Reply? && world.reply(i).frame.data.Some? ==>
      || AnswersWithError(world.reply(i).frame)
      || (i < |s.returned| && Carries(world.reply(i).frame.data.value, s.returned[i].settle))
  }

  /** A prompt that was answered without a fault got its settle from a promise. */
  lemma {:induction false} CleanAnswerIsPromised(world: C.World, events: seq<P.Event>, n: nat,
                                                 script: seq<PlanTurn>, i: nat)
    requires n <= |events| && i < |script|
    requires AnsweredInOrder(world, P.Run(P.START, events, n), script)
    requires world.reply(i).Reply? && !C.Fatal(world.reply(i).frame)
    ensures var s := P.Run(P.START, events, n);
            && i < |s.returned| && s.returned[i].fromPromise
            && Carries(world.reply(i).frame.data.value, s.returned[i].settle)
  {
    P.RefusalsAlwaysStop(events, n);
    var s := P.Run(P.START, events, n);
    assert !AnswersWithError(world.reply(i).frame);
    SettleEndIsRecorded(world.reply(i).frame.data.value, s.returned[i].settle);
  }

  /** From the agent's model calls to the evidence on disk: whatever the interleaving
      inside the driver, the record of every turn that passed without a fault counts
      exactly the contexts that the gate admitted under that turn's id. */
  lemma {:induction false} RecordsCountTheirTurns(plan: Plan, instruction: string, world: C.World,
                                                  events: seq<P.Event>, n: nat, summary: Summary, i: nat)
    requires ValidPlan(plan) && n <= |events|
    requires SentInOrder(events, n, C.Script(plan, instruction))
    requires AnsweredInOrder(world, P.Run(P.START, events, n), C.Script(plan, instruction))
    requires C.SummarizesRun(summary, plan, C.Script(plan, instruction), world)
    requires i < |summary.messages| && world.reply(i).Reply? && !C.Fatal(world.reply(i).frame)
    ensures var contexts := P.Run(P.START, events, n).gate.contexts;
            summary.messages[i].loopsStarted == P.CountUnder(contexts, summary.messages[i].id, |contexts|)
  {
    var s, script := P.Run(P.START, events, n), C.Script(plan, instruction);
    C.ScriptIsDistinct(plan, instruction);
    RunFollows(events, n, script);
    CleanAnswerIsPromised(world, events, n, script, i);
    P.SettlesCountTheirTurn(events, n, i);
    assert C.RecordsReply(world, script[i].id, i, summary.messages[i]);
  }

  /** In particular every record of a valid run does. */
  lemma {:induction false} ValidRunCountsEveryTurn(plan: Plan, instruction: string, world: C.World,
                                                   events: seq<P.Event>, n: nat, summary: Summary)
    requires ValidPlan(plan) && n <= |events|
    requires SentInOrder(events, n, C.Script(plan, instruction))
    requires AnsweredInOrder(world, P.Run(P.START, events, n), C.Script(plan, instruction))
    requires C.SummarizesRun(summary, plan, C.Script(plan, instruction), world)
    requires C.CleanDelivery(world, C.CapturesOf(plan), C.Script(plan, instruction), |summary.messages|)
    ensures var contexts := P.Run(P.START, events, n).gate.contexts;
            forall i :: 0 <= i < |summary.messages| ==>
              summary.messages[i].loopsStarted == P.CountUnder(contexts, summary.messages[i].id, |contexts|)
  {
    forall i | 0 <= i < |summary.messages|
      ensures var contexts := P.Run(P.START, events, n).gate.contexts;
              summary.messages[i].loopsStarted == P.CountUnder(contexts, summary.messages[i].id, |contexts|)
    {
      assert C.TurnClean(world, C.CapturesOf(plan), C.Script(plan, instruction), i);
      RecordsCountTheirTurns(plan, instruction, world, events, n, summary, i);
    }
  }
}
