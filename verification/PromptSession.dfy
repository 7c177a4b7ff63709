/** One prompt at a time over a shared session (omp_session.ts, omp_control.ts).

    `runControlledPrompt` suspends at every `await`; between two suspensions
    it runs atomically.  Meanwhile the message timer, abort and shutdown
    commands, the agent loop and the completion of the prompt call all write
    the same admission gate and the same in-flight entry.  `Step` performs one
    such atomic piece and `Run` any interleaving of them: an event that is not
    possible in a state leaves it unchanged. */
module PromptSession {
  import opened Prelude
  import opened VisibleHistory
  import opened AdmissionGate

  /** A message of the agent state; `errored` is a stop reason `error` or an error text. */
  datatype HostMessage = HostMessage(message: Message, errored: bool)

  /** The settle frame, without its timestamps, usage and advisor block. */
  datatype Settle = Settle(
    ended: Ended,
    loopsStarted: int,
    loopsCompleted: int,
    continuationPossible: bool,
    ready: bool,
    invalid: Option<Invalid>,
    error: bool)

  /** Where `runControlledPrompt` is suspended. */
  datatype Phase =
    | Starting(abort: nat)  // awaiting the abort of an already expired wall
    | Prompting             // racing the prompt call against the promise
    | Idling                // racing `waitForIdle` against five seconds
    | Draining(idle: bool)  // awaiting the advisors
    | Returning             // awaiting the promise itself

  /** The running call.  `base` counts the contexts admitted before it began, and
      `interrupted` says that its own wall, its own deadline, the abort signal or
      an abort launched while it was running has touched it. */
  datatype Prompt = Prompt(
    gen: nat,
    turnId: string,
    phase: Phase,
    timedOut: bool,
    armed: bool,
    workDone: bool,
    failed: bool,
    base: nat,
    interrupted: bool)

  /** One call of a promise's `resolve`, with the admission count at that moment. */
  datatype Resolution = Resolution(prompt: Prompt, settle: Settle, admitted: nat)

  /** What a call of `runControlledPrompt` hands back, from its promise or at once,
      with the admission counts as it began and as it was settled. */
  datatype Returned = Returned(
    gen: nat,
    turnId: string,
    settle: Settle,
    fromPromise: bool,
    base: nat,
    admitted: nat)

  /** The command loop waits for an abort before it reads on; a shutdown is the last
      command that it reads. */
  datatype CommandLoop = Reading | Awaiting(abort: nat) | Stopped

  datatype Session = Session(
    gate: Gate,
    host: seq<HostMessage>,
    nextGen: nat,
    prompt: Option<Prompt>,
    inflight: Option<nat>,
    aborts: set<nat>,
    nextAbort: nat,
    loop: CommandLoop,
    strays: seq<bool>,  // prompt calls that outlived their prompt, with their `timedOut`
    resolved: seq<Resolution>,
    returned: seq<Returned>)

  const START: Session := Session(INITIAL, [], 0, None, None, {}, 0, Reading, [], [], [])

  datatype IdleOutcome = BecameIdle | IdleFailed | IdleTimedOut

  datatype Event =
    | StartPrompt(turnId: string, maxTurns: int, timeoutSeconds: Option<int>, overallDeadline: Option<int>, now: int,
                  busy: bool)
    | AbortCommand
    | ShutdownCommand
    | FrameFailure(aborting: bool)
    | AgentCalls(messages: seq<Message>, aborted: bool, at: int)
    | TurnEnds
    | HostChanges(host: seq<HostMessage>)
    | TimerFires
    | WorkFinishes(accepted: bool)
    | StrayFinishes(stray: nat, strayAccepted: bool)
    | AbortFinishes(abort: nat, idle: bool)
    | WallAbortReturns
    | RaceEnds
    | IdleDecided(outcome: IdleOutcome)
    | DrainEnds
    | CallReturns

  // ---------- Building a settle ----------

  /** Whether the last assistant message among `host[start..n]` errored. */
  predicate LastReplyErrored(host: seq<HostMessage>, start: nat, n: nat)
    requires n <= |host|
  {
    if n <= start then false
    else if host[n - 1].message.AssistantMessage? then host[n - 1].errored
    else LastReplyErrored(host, start, n - 1)
  }

  function Classified(gate: Gate, host: seq<HostMessage>): Ended {
    if gate.invalid.Some? then Error
    else if gate.ended == Some(Cap) then Cap
    else if gate.ended == Some(Timeout) then Timeout
    else if LastReplyErrored(host, gate.messageStartIndex, |host|) then Error
    else if gate.ended.Some? then gate.ended.value
    else Natural
  }

  function Built(gate: Gate, host: seq<HostMessage>, ready: bool, error: bool): Settle {
    Settle(Classified(gate, host), gate.loopsStarted, gate.loopsCompleted, !gate.halted, ready, gate.invalid, error)
  }

  function Visible(host: seq<HostMessage>, n: nat): (messages: seq<Message>)
    requires n <= |host|
    ensures |messages| == n
  {
    if n == 0 then [] else Visible(host, n - 1) + [host[n - 1].message]
  }

  /** Milliseconds left to the earlier of the two walls, if there is one. */
  function WallMs(event: Event): Option<int>
    requires event.StartPrompt?
  {
    match (event.timeoutSeconds, event.overallDeadline)
    case (None, None) => None
    case (Some(seconds), None) => Some(seconds * 1000)
    case (None, Some(overall)) => Some(overall - event.now)
    case (Some(seconds), Some(overall)) =>
      Some(if overall - event.now < seconds * 1000 then overall - event.now else seconds * 1000)
  }

  lemma {:induction false} LastReplyDecides(host: seq<HostMessage>, start: nat, n: nat)
    requires n <= |host|
    ensures forall k :: start <= k < n && host[k].message.AssistantMessage?
                        && (forall j :: k < j < n ==> !host[j].message.AssistantMessage?) ==>
                          LastReplyErrored(host, start, n) == host[k].errored
    ensures (forall k :: start <= k < n ==> !host[k].message.AssistantMessage?) ==> !LastReplyErrored(host, start, n)
  {
    if n > start && !host[n - 1].message.AssistantMessage? {
      LastReplyDecides(host, start, n - 1);
    }
  }

  /** What the ending of a settle tells.  An invalid gate is an error, a cap and a timeout
      are what they are; otherwise an error of the last reply since the prompt began wins
      over what the gate recorded, and a prompt about which nothing is recorded ended
      naturally. */
  lemma {:induction false} EndingTells(gate: Gate, host: seq<HostMessage>, ready: bool, error: bool)
    ensures var ended := Built(gate, host, ready, error).ended;
            && (gate.invalid.Some? ==> ended == Error)
            && (gate.invalid.None? && gate.ended == Some(Cap) ==> ended == Cap)
            && (gate.invalid.None? && gate.ended == Some(Timeout) ==> ended == Timeout)
            && (gate.invalid.None? && (gate.ended.None? || gate.ended.value in {Natural, Error}) ==>
              var otherwise := if gate.ended.Some? then gate.ended.value else Natural;
              && (forall k :: gate.messageStartIndex <= k < |host| && host[k].message.AssistantMessage?
                              && (forall j :: k < j < |host| ==> !host[j].message.AssistantMessage?) ==>
                                ended == if host[k].errored then Error else otherwise)
              && ((forall k :: gate.messageStartIndex <= k < |host| ==> !host[k].message.AssistantMessage?) ==>
                ended == otherwise))
  {
    LastReplyDecides(host, gate.messageStartIndex, |host|);
  }

  // ---------- One atomic piece ----------

  /** `finishInFlight`: resolve the in-flight promise once and forget it. */
  function Finished(s: Session, settle: Settle): Session {
    if s.inflight.None? || s.prompt.None? then s
    else s.(resolved := s.resolved + [Resolution(s.prompt.value, settle, |s.gate.contexts|)], inflight := None)
  }

  function Launched(s: Session): Session {
    s.(aborts := s.aborts + {s.nextAbort},
    nextAbort := s.nextAbort + 1,
    prompt := if s.prompt.Some? then Some(s.prompt.value.(interrupted := true)) else None)
  }

  function ReturnedAtOnce(s: Session, turnId: string, gate: Gate, settle: Settle): Session {
    var admitted := |s.gate.contexts|;
    s.(gate := gate,
    nextGen := s.nextGen + 1,
    returned := s.returned + [Returned(s.nextGen, turnId, settle, false, admitted, admitted)])
  }

  /** Whether no command is being read; a prompt is not waited for. */
  predicate LoopWaits(s: Session) {
    s.loop.Stopped? || (s.loop.Awaiting? && s.loop.abort in s.aborts)
  }

  /** The agent is entered; a wall that has passed already aborts it at once. */
  function Entered(s: Session, e: Event): Session
    requires e.StartPrompt?
  {
    var wall := WallMs(e);
    var prompt := Prompt(s.nextGen, e.turnId, Prompting, false, wall.Some?, false, false,
                         |s.gate.contexts|, false);
    var begun := s.(nextGen := s.nextGen + 1, prompt := Some(prompt), inflight := Some(s.nextGen));
    if wall.Some? && wall.value <= 0 then
      Launched(begun.(gate := s.gate.(ended := Some(Timeout)),
               prompt := Some(prompt.(phase := Starting(s.nextAbort), timedOut := true, armed := false))))
    else begun
  }

  function Started(s: Session, e: Event): Session
    requires e.StartPrompt?
  {
    if LoopWaits(s) || s.prompt.Some? || e.busy || s.inflight.Some? then s
    else if Unusable(s.gate) then
      ReturnedAtOnce(s, e.turnId, Shut(s.gate), Built(Shut(s.gate), s.host, false, false))
    else if s.gate.explicitlyClosed && s.gate.cumulativeLoopsStarted == 0 then
      var settle := Built(s.gate.(ended := Some(Error)), s.host, true, false);
      ReturnedAtOnce(s, e.turnId, s.gate.(ended := None), settle.(continuationPossible := true))
    else
      var gate := Begun(s.gate, BeginPrompt(e.turnId, e.maxTurns, e.timeoutSeconds, |s.host|, e.now));
      if gate.closed then ReturnedAtOnce(s, e.turnId, gate, Built(gate, s.host, true, false))
      else Entered(s.(gate := gate), e)
  }

  ghost function AgentCalled(s: Session, e: Event): Session
    requires e.AgentCalls?
  {
    var op := ModelCall(e.messages, e.aborted, e.at);
    var late := !s.gate.halted && !s.gate.closed &&
                (e.aborted || (s.gate.deadline.Some? && e.at >= s.gate.deadline.value));
    s.(gate := Called(s.gate, op),
    prompt := if late && s.prompt.Some? then Some(s.prompt.value.(interrupted := true)) else s.prompt)
  }

  function TimerFired(s: Session): Session {
    if s.prompt.Some? && s.prompt.value.phase.Prompting? && s.prompt.value.armed then
      Launched(s.(gate := s.gate.(ended := Some(Timeout)),
               prompt := Some(s.prompt.value.(armed := false, timedOut := true))))
    else s
  }

  function WorkDone(s: Session, accepted: bool): Session {
    if s.prompt.Some? && s.prompt.value.phase.Prompting? && !s.prompt.value.workDone then
      var p := s.prompt.value;
      s.(prompt := Some(p.(workDone := true, failed := p.failed || !accepted)),
      gate := if !accepted && s.gate.ended.None? && !p.timedOut then s.gate.(ended := Some(Error)) else s.gate)
    else s
  }

  function StrayDone(s: Session, stray: nat, accepted: bool): Session {
    if stray < |s.strays| then
      s.(strays := s.strays[..stray] + s.strays[stray + 1..],
      gate := if !accepted && s.gate.ended.None? && !s.strays[stray] then s.gate.(ended := Some(Error)) else s.gate)
    else s
  }

  function AbortDone(s: Session, abort: nat, idle: bool): Session {
    if abort !in s.aborts then s
    else
      var t := s.(aborts := s.aborts - {abort});
      if t.inflight.None? then t
      else if idle then
        var gate := if t.gate.ended.None? then t.gate.(ended := Some(Timeout)) else t.gate;
        t.(gate := Settled(Shut(gate), Visible(t.host, |t.host|)))
      else
        var gate := Halted(t.gate, Because(Quiescence));
        Finished(t.(gate := gate), Built(gate, t.host, false, false))
  }

  function WallAbortReturned(s: Session): Session {
    if s.prompt.Some? && s.prompt.value.phase.Starting? && s.prompt.value.phase.abort !in s.aborts then
      s.(prompt := Some(s.prompt.value.(phase := Prompting)))
    else s
  }

  function RaceEnded(s: Session): Session {
    if s.prompt.Some? && s.prompt.value.phase.Prompting? && (s.prompt.value.workDone || s.inflight.None?) then
      var p := s.prompt.value;
      var strays := if p.workDone then s.strays else s.strays + [p.timedOut];
      if s.inflight.Some? then s.(prompt := Some(p.(phase := Idling, armed := false)), strays := strays)
      else
        s.(prompt := Some(p.(phase := Returning, armed := false)),
        strays := strays,
        gate := Settled(Shut(s.gate), Visible(s.host, |s.host|)))
    else s
  }

  function IdleWasDecided(s: Session, outcome: IdleOutcome): Session {
    if s.prompt.Some? && s.prompt.value.phase.Idling? then
      var gate := if outcome.BecameIdle? then s.gate else Halted(s.gate, Because(Quiescence));
      s.(gate := Settled(Shut(gate), Visible(s.host, |s.host|)),
      prompt := Some(s.prompt.value.(phase := Draining(outcome.BecameIdle?),
                     failed := s.prompt.value.failed || outcome.IdleFailed?)))
    else s
  }

  function DrainEnded(s: Session): Session {
    if s.prompt.Some? && s.prompt.value.phase.Draining? then
      var p := s.prompt.value;
      var settled := Finished(s, Built(s.gate, s.host, p.phase.idle && !s.gate.halted, p.failed));
      settled.(prompt := Some(p.(phase := Returning)))
    else s
  }

  /** The caller receives the promise's value; without one it would wait forever. */
  function CallReturned(s: Session): Session {
    if s.prompt.Some? && s.prompt.value.phase.Returning? && s.resolved != [] &&
       s.resolved[|s.resolved| - 1].prompt.gen == s.prompt.value.gen then
      var p, r := s.prompt.value, s.resolved[|s.resolved| - 1];
      s.(prompt := None,
      returned := s.returned + [Returned(p.gen, p.turnId, r.settle, true, p.base, r.admitted)])
    else s
  }

  ghost function Step(s: Session, e: Event): Session {
    match e
    case StartPrompt(_, _, _, _, _, _) => Started(s, e)
    case AbortCommand => if LoopWaits(s) then s else Launched(s.(loop := Awaiting(s.nextAbort)))
    case ShutdownCommand =>
      if LoopWaits(s) then s else Launched(s.(loop := Stopped, gate := Halted(s.gate, Ending(Error))))
    case FrameFailure(aborting) =>
      var halted := s.(gate := Halted(s.gate, Because(EventFrame)));
      if aborting then Launched(halted) else halted
    case AgentCalls(_, _, _) => AgentCalled(s, e)
    case TurnEnds =>
      if s.prompt.Some? && s.prompt.value.phase.Prompting? then s.(gate := LoopDone(s.gate)) else s
    case HostChanges(host) => s.(host := host)
    case TimerFires => TimerFired(s)
    case WorkFinishes(accepted) => WorkDone(s, accepted)
    case StrayFinishes(stray, accepted) => StrayDone(s, stray, accepted)
    case AbortFinishes(abort, idle) => AbortDone(s, abort, idle)
    case WallAbortReturns => WallAbortReturned(s)
    case RaceEnds => RaceEnded(s)
    case IdleDecided(outcome) => IdleWasDecided(s, outcome)
    case DrainEnds => DrainEnded(s)
    case CallReturns => CallReturned(s)
  }

  /** The session after the first `n` of `events`. */
  ghost function Run(s: Session, events: seq<Event>, n: nat): Session
    requires n <= |events|
  {
    if n == 0 then s else Step(Run(s, events, n - 1), events[n - 1])
  }

  /** Two runs that stood at the same point and take the same step. */
  lemma {:induction false} RunsStayEqual(s: Session, events: seq<Event>, m: nat, t: Session, others: seq<Event>, n: nat)
    requires 0 < m <= |events| && 0 < n <= |others| && events[m - 1] == others[n - 1]
    requires Run(s, events, m - 1) == Run(t, others, n - 1)
    ensures Run(s, events, m) == Run(t, others, n)
  {
  }

  lemma {:induction false} RunAppend(s: Session, first: seq<Event>, more: seq<Event>, n: nat)
    requires n <= |more|
    ensures Run(s, first + more, |first| + n) == Run(Run(s, first, |first|), more, n)
  {
    if n == 0 {
      RunSkips(s, first, more, |first|);
    } else {
      RunAppend(s, first, more, n - 1);
      RunsStayEqual(s, first + more, |first| + n, Run(s, first, |first|), more, n);
    }
  }

  lemma {:induction false} RunSkips(s: Session, first: seq<Event>, more: seq<Event>, n: nat)
    requires n <= |first|
    ensures Run(s, first + more, n) == Run(s, first, n)
  {
    if n > 0 {
      RunSkips(s, first, more, n - 1);
    }
  }

  /** A prompt call that ends well and leaves the agent idle, up to its settle. */
  const COMPLETION: seq<Event> := [WorkFinishes(true), RaceEnds, IdleDecided(BecameIdle), DrainEnds]

  function Completed(s: Session): Session {
    DrainEnded(IdleWasDecided(RaceEnded(WorkDone(s, true)), BecameIdle))
  }

  lemma {:induction false} RunOfFour(s: Session, events: seq<Event>)
    requires |events| == 4
    ensures Run(s, events, 4) == Step(Step(Step(Step(s, events[0]), events[1]), events[2]), events[3])
  {
    assert Run(s, events, 1) == Step(s, events[0]);
    assert Run(s, events, 2) == Step(Run(s, events, 1), events[1]);
  }

  lemma {:induction false} RunCompletes(s: Session)
    ensures Run(s, COMPLETION, 4) == Completed(s)
  {
    RunOfFour(s, COMPLETION);
    assert Step(s, COMPLETION[0]) == WorkDone(s, true);
  }

  /** What is left of the running prompt and of the gate after a completion. */
  lemma {:induction false} CompletionSettles(s: Session)
    requires s.prompt.Some? && s.prompt.value.phase.Prompting? && !s.prompt.value.workDone && s.inflight.Some?
    ensures
      var t := Completed(s);
      var p := s.prompt.value.(phase := Idling, armed := false, workDone := true);
      && t.gate == Settled(Shut(s.gate), Visible(s.host, |s.host|))
      && t.prompt == Some(p.(phase := Returning)) && t.inflight.None?
      && |t.resolved| == |s.resolved| + 1 && t.resolved[..|s.resolved|] == s.resolved
      && var r := t.resolved[|s.resolved|];
      && r.prompt.gen == p.gen && r.prompt.interrupted == p.interrupted
      && r.settle == Built(t.gate, s.host, !s.gate.halted, p.failed)
  {
    var s2 := RaceEnded(WorkDone(s, true));
    var p := s.prompt.value.(phase := Idling, armed := false, workDone := true);
    assert s2 == s.(prompt := Some(p));
  }

  /** It touches nothing else, and its call returns. */
  lemma {:induction false} CompletionReturns(s: Session)
    requires s.prompt.Some? && s.prompt.value.phase.Prompting? && !s.prompt.value.workDone && s.inflight.Some?
    ensures
      var t := CallReturned(Completed(s));
      && t.prompt.None? && t.inflight.None? && t.gate == Settled(Shut(s.gate), Visible(s.host, |s.host|))
      && t.aborts == s.aborts && t.loop == s.loop && t.host == s.host && t.nextGen == s.nextGen
      && |t.returned| == |s.returned| + 1 && |t.resolved| == |s.resolved| + 1
  {
    CompletionSettles(s);
    var s2 := RaceEnded(WorkDone(s, true));
    var p := s.prompt.value.(phase := Idling, armed := false, workDone := true);
    assert s2 == s.(prompt := Some(p));
  }

  // ---------- What every interleaving keeps ----------

  /** At most one promise is unresolved, it is the running prompt's, and every
      promise is resolved at most once, in order. */
  ghost predicate OneFlight(s: Session) {
    && (s.inflight.Some? ==>
      s.prompt.Some? && s.inflight.value == s.prompt.value.gen && !s.prompt.value.phase.Returning?)
    && (s.prompt.Some? ==> s.prompt.value.gen < s.nextGen)
    && (forall i :: 0 <= i < |s.resolved| ==> s.resolved[i].prompt.gen < s.nextGen)
    && (forall i, j :: 0 <= i < j < |s.resolved| ==> s.resolved[i].prompt.gen < s.resolved[j].prompt.gen)
    && (s.prompt.Some? && s.inflight.Some? ==>
      forall i :: 0 <= i < |s.resolved| ==> s.resolved[i].prompt.gen < s.prompt.value.gen)
    && (s.prompt.Some? && s.inflight.None? ==>
      s.resolved != [] && s.resolved[|s.resolved| - 1].prompt.gen == s.prompt.value.gen)
  }

  /** A promise resolved by anyone but its own prompt means the session was
      halted, and a prompt past its idle race has shut the gate. */
  ghost predicate Shutting(s: Session) {
    && (s.prompt.Some? && s.inflight.None? && !s.prompt.value.phase.Returning? ==> s.gate.halted)
    && (s.strays != [] ==> s.gate.halted)
    && (s.prompt.None? ==> s.gate.closed)
    && (s.prompt.Some? && (s.prompt.value.phase.Draining? || s.prompt.value.phase.Returning?) ==> s.gate.closed)
  }

  /** The gate counts the running prompt's own admissions. */
  ghost predicate OwnCounters(s: Session) {
    s.prompt.Some? ==>
      && s.gate.turnId == s.prompt.value.turnId
      && |s.gate.contexts| == s.prompt.value.base + s.gate.loopsStarted
  }

  ghost predicate Shape(s: Session) {
    OneFlight(s) && Shutting(s) && OwnCounters(s)
  }

  ghost predicate SessionInv(s: Session) {
    GateInv(s.gate) && Shape(s)
  }

  /** What a settle says about its own call: the contexts admitted from the call's
      beginning to its settle, all carrying its turn id and numbered from 1, are
      exactly the loops it reports. */
  ghost predicate CountsOwn(contexts: seq<Gated>, turnId: string, base: nat, admitted: nat, settle: Settle) {
    && base <= admitted <= |contexts|
    && settle.loopsStarted == admitted - base
    && 0 <= settle.loopsCompleted <= settle.loopsStarted
    && (forall i :: base <= i < admitted ==> contexts[i].turnId == turnId && contexts[i].loop == i - base + 1)
  }

  ghost predicate ReportsOwnLoops(contexts: seq<Gated>, r: Resolution) {
    CountsOwn(contexts, r.prompt.turnId, r.prompt.base, r.admitted, r.settle)
  }

  ghost predicate ReturnsOwnLoops(contexts: seq<Gated>, r: Returned) {
    CountsOwn(contexts, r.turnId, r.base, r.admitted, r.settle)
  }

  ghost predicate Reports(s: Session) {
    forall i :: 0 <= i < |s.resolved| ==> ReportsOwnLoops(s.gate.contexts, s.resolved[i])
  }

  predicate Terminal(settle: Settle) {
    settle.ended == Error && !settle.continuationPossible
  }

  // ----- The gate under session steps -----

  lemma {:induction false} SettleKeepsGate(g: Gate, host: seq<HostMessage>)
    requires GateInv(g)
    ensures GateInv(Settled(Shut(g), Visible(host, |host|)))
  {
    FlagsKeepInvariant(g, Shut(g));
    SettledKeepsInvariant(Shut(g), Visible(host, |host|));
  }

  lemma {:induction false} StartKeepsGate(s: Session, e: Event)
    requires GateInv(s.gate) && e.StartPrompt?
    ensures GateInv(Started(s, e).gate)
  {
    var begin := BeginPrompt(e.turnId, e.maxTurns, e.timeoutSeconds, |s.host|, e.now);
    var gate := Begun(s.gate, begin);
    FlagsKeepInvariant(s.gate, Shut(s.gate));
    FlagsKeepInvariant(s.gate, s.gate.(ended := None));
    BegunKeepsInvariant(s.gate, begin);
    FlagsKeepInvariant(gate, gate.(ended := Some(Timeout)));
  }

  lemma {:induction false} AbortKeepsGate(s: Session, abort: nat, idle: bool)
    requires GateInv(s.gate)
    ensures GateInv(AbortDone(s, abort, idle).gate)
  {
    var halted, timedOut := Halted(s.gate, Because(Quiescence)), s.gate.(ended := Some(Timeout));
    FlagsKeepInvariant(s.gate, halted);
    FlagsKeepInvariant(s.gate, timedOut);
    SettleKeepsGate(s.gate, s.host);
    SettleKeepsGate(timedOut, s.host);
  }

  lemma {:induction false} IdleKeepsGate(s: Session, outcome: IdleOutcome)
    requires GateInv(s.gate)
    ensures GateInv(IdleWasDecided(s, outcome).gate)
  {
    var halted := Halted(s.gate, Because(Quiescence));
    FlagsKeepInvariant(s.gate, halted);
    SettleKeepsGate(s.gate, s.host);
    SettleKeepsGate(halted, s.host);
  }

  /** `h` differs from `g` as `FlagsKeepInvariant` allows. */
  ghost predicate OnlyFlags(g: Gate, h: Gate) {
    && Latches(h) && h.contexts == g.contexts && h.lastPrefix == g.lastPrefix && h.turnId == g.turnId
    && h.cumulativeLoopsStarted == g.cumulativeLoopsStarted
    && h.maxTurns == g.maxTurns && h.loopsStarted == g.loopsStarted
    && g.loopsCompleted <= h.loopsCompleted <= h.loopsStarted
  }

  lemma {:induction false} FlagStep(s: Session, e: Event)
    requires Latches(s.gate) && s.gate.loopsCompleted <= s.gate.loopsStarted
    requires e.ShutdownCommand? || e.FrameFailure? || e.TurnEnds? || e.TimerFires? || e.WorkFinishes? ||
             e.StrayFinishes?
    ensures OnlyFlags(s.gate, Step(s, e).gate)
  {
  }

  lemma {:induction false} FlagStepKeepsGate(s: Session, e: Event)
    requires GateInv(s.gate)
    requires e.ShutdownCommand? || e.FrameFailure? || e.TurnEnds? || e.TimerFires? || e.WorkFinishes? ||
             e.StrayFinishes?
    ensures GateInv(Step(s, e).gate)
  {
    FlagStep(s, e);
    FlagsKeepInvariant(s.gate, Step(s, e).gate);
  }

  lemma {:induction false} StepKeepsGate(s: Session, e: Event)
    requires GateInv(s.gate)
    ensures GateInv(Step(s, e).gate)
  {
    match e
    case StartPrompt(_, _, _, _, _, _) => StartKeepsGate(s, e);
    case AgentCalls(messages, aborted, at) => CalledKeepsInvariant(s.gate, ModelCall(messages, aborted, at));
    case AbortFinishes(abort, idle) => AbortKeepsGate(s, abort, idle);
    case IdleDecided(outcome) => IdleKeepsGate(s, outcome);
    case RaceEnds => SettleKeepsGate(s.gate, s.host);
    case AbortCommand => assert Step(s, e).gate == s.gate;
    case HostChanges(_) => assert Step(s, e).gate == s.gate;
    case WallAbortReturns => assert Step(s, e).gate == s.gate;
    case DrainEnds => assert Step(s, e).gate == s.gate;
    case CallReturns => assert Step(s, e).gate == s.gate;
    case _ => FlagStepKeepsGate(s, e);
  }

  // ----- The session's shape under its steps -----

  lemma {:induction false} StartKeepsShape(s: Session, e: Event)
    requires Shape(s) && e.StartPrompt?
    ensures Shape(Started(s, e))
  {
  }

  lemma {:induction false} AgentCallKeepsShape(s: Session, e: Event)
    requires Shape(s) && e.AgentCalls?
    ensures Shape(AgentCalled(s, e))
  {
  }

  lemma {:induction false} AbortKeepsShape(s: Session, abort: nat, idle: bool)
    requires Shape(s)
    ensures Shape(AbortDone(s, abort, idle))
  {
  }

  lemma {:induction false} CallKeepsShape(s: Session, e: Event)
    requires Shape(s)
    requires e.RaceEnds? || e.IdleDecided? || e.CallReturns? || e.WallAbortReturns?
    ensures Shape(Step(s, e))
  {
  }

  lemma {:induction false} DrainKeepsShape(s: Session)
    requires Shape(s)
    ensures Shape(DrainEnded(s))
  {
  }

  lemma {:induction false} CommandKeepsShape(s: Session, e: Event)
    requires Shape(s) && (e.AbortCommand? || e.ShutdownCommand?)
    ensures Shape(Step(s, e))
  {
  }

  lemma {:induction false} FailureKeepsShape(s: Session, e: Event)
    requires Shape(s) && e.FrameFailure?
    ensures Shape(Step(s, e))
  {
  }

  lemma {:induction false} TickKeepsShape(s: Session, e: Event)
    requires Shape(s) && (e.TurnEnds? || e.HostChanges? || e.TimerFires?)
    ensures Shape(Step(s, e))
  {
  }

  lemma {:induction false} WorkKeepsShape(s: Session, e: Event)
    requires Shape(s) && (e.WorkFinishes? || e.StrayFinishes?)
    ensures Shape(Step(s, e))
  {
  }

  lemma {:induction false} StepKeepsSession(s: Session, e: Event)
    requires SessionInv(s)
    ensures SessionInv(Step(s, e))
  {
    StepKeepsGate(s, e);
    match e
    case StartPrompt(_, _, _, _, _, _) => StartKeepsShape(s, e);
    case AgentCalls(_, _, _) => AgentCallKeepsShape(s, e);
    case AbortFinishes(abort, idle) => AbortKeepsShape(s, abort, idle);
    case DrainEnds => DrainKeepsShape(s);
    case RaceEnds => CallKeepsShape(s, e);
    case IdleDecided(_) => CallKeepsShape(s, e);
    case CallReturns => CallKeepsShape(s, e);
    case WallAbortReturns => CallKeepsShape(s, e);
    case WorkFinishes(_) => WorkKeepsShape(s, e);
    case StrayFinishes(_, _) => WorkKeepsShape(s, e);
    case TurnEnds => TickKeepsShape(s, e);
    case HostChanges(_) => TickKeepsShape(s, e);
    case TimerFires => TickKeepsShape(s, e);
    case FrameFailure(_) => FailureKeepsShape(s, e);
    case _ => CommandKeepsShape(s, e);
  }

  lemma {:induction false} RunKeepsSession(s: Session, events: seq<Event>, n: nat)
    requires n <= |events| && SessionInv(s)
    ensures SessionInv(Run(s, events, n))
  {
    if n > 0 {
      RunKeepsSession(s, events, n - 1);
      StepKeepsSession(Run(s, events, n - 1), events[n - 1]);
    }
  }

  // ---------- What each piece does ----------

  /** Whether a command is read now: not after a shutdown, and not while an abort command
      is still quiescing. */
  ghost predicate Reads(s: Session) {
    s.loop == Reading || (s.loop.Awaiting? && s.loop.abort !in s.aborts)
  }

  ghost predicate Prompts(s: Session) {
    s.prompt.Some? && s.prompt.value.phase == Prompting
  }

  /** A prompt that is read while another is about or the session is busy is rejected; one
      that finds the gate halted, invalid or closed before its first loop is answered at
      once; any other is entered, under its own turn id and with a promise of its own. */
  lemma {:induction false} StartTells(s: Session, e: Event)
    requires e.StartPrompt?
    ensures var t := Step(s, e);
            if !Reads(s) || s.prompt.Some? || s.inflight.Some? || e.busy then t == s
            else if s.gate.halted || (s.gate.invalid.Some? && s.gate.invalid != Some(Quiescence)) then
              && t.prompt.None? && t.inflight.None? && t.gate.closed && t.gate.halted == s.gate.halted
              && |t.returned| == |s.returned| + 1
              && var answer := t.returned[|s.returned|];
                 && answer.turnId == e.turnId && !answer.fromPromise && !answer.settle.ready && !answer.settle.error
                 && (answer.settle.continuationPossible <==> !s.gate.halted)
            else if s.gate.explicitlyClosed && s.gate.cumulativeLoopsStarted == 0 then
              && t.prompt.None? && t.inflight.None? && t.gate == s.gate.(ended := None)
              && |t.returned| == |s.returned| + 1
              && var answer := t.returned[|s.returned|];
                 && answer.turnId == e.turnId && !answer.fromPromise && answer.settle.ready
                 && answer.settle.continuationPossible && answer.settle.ended == Error && !answer.settle.error
            else
              && t.returned == s.returned && t.inflight == Some(s.nextGen)
              && t.prompt.Some? && t.prompt.value.turnId == e.turnId && t.prompt.value.gen == s.nextGen
              && t.gate.turnId == e.turnId && t.gate.maxTurns == e.maxTurns
              && t.gate.messageStartIndex == |s.host| && !t.gate.closed
  {
  }

  /** A prompt whose wall, its own or that of the run, has passed as it begins is labelled
      a timeout and aborted before the agent is entered; its timer is armed exactly when
      there is a wall ahead. */
  lemma {:induction false} EntryTells(s: Session, e: Event)
    requires e.StartPrompt? && s.prompt.None? && Step(s, e).prompt.Some?
    ensures var t := Step(s, e);
            var late := (e.timeoutSeconds.Some? && e.timeoutSeconds.value <= 0)
                        || (e.overallDeadline.Some? && e.overallDeadline.value <= e.now);
            if late then
              && t.prompt.value.phase == Starting(s.nextAbort) && t.aborts == s.aborts + {s.nextAbort}
              && t.nextAbort == s.nextAbort + 1 && t.prompt.value.interrupted
              && t.gate.ended == Some(Timeout) && t.prompt.value.timedOut && !t.prompt.value.armed
            else
              && t.prompt.value.phase == Prompting && t.aborts == s.aborts
              && t.gate.ended.None? && !t.prompt.value.timedOut && !t.prompt.value.interrupted
              && (t.prompt.value.armed <==> e.timeoutSeconds.Some? || e.overallDeadline.Some?)
  {
  }

  /** Of the pieces other than a beginning and a model call: what is recorded as the ending. */
  lemma {:induction false} EndedTells(s: Session, e: Event)
    requires !e.StartPrompt? && !e.AgentCalls?
    ensures Step(s, e).gate.ended ==
            if e.TimerFires? && Prompts(s) && s.prompt.value.armed then Some(Timeout)
            else if e.WorkFinishes? && !e.accepted && Prompts(s) && !s.prompt.value.workDone
                    && s.gate.ended.None? && !s.prompt.value.timedOut then Some(Error)
            else if e.StrayFinishes? && !e.strayAccepted && e.stray < |s.strays|
                    && s.gate.ended.None? && !s.strays[e.stray] then Some(Error)
            else if e.AbortFinishes? && e.idle && e.abort in s.aborts && s.inflight.Some? && s.gate.ended.None? then
              Some(Timeout)
            else if (e.AbortFinishes? && !e.idle && e.abort in s.aborts && s.inflight.Some?)
                    || (e.IdleDecided? && e.outcome != BecameIdle && s.prompt.Some? && s.prompt.value.phase == Idling)
                    || (e.ShutdownCommand? && Reads(s)) || e.FrameFailure? then Some(Error)
            else s.gate.ended
  {
  }

  /** Of the same pieces: what halts and invalidates the gate. */
  lemma {:induction false} HaltedTells(s: Session, e: Event)
    requires !e.StartPrompt? && !e.AgentCalls?
    ensures var stuck := (e.AbortFinishes? && !e.idle && e.abort in s.aborts && s.inflight.Some?)
                         || (e.IdleDecided? && e.outcome != BecameIdle
                             && s.prompt.Some? && s.prompt.value.phase == Idling);
            && (Step(s, e).gate.halted <==>
              s.gate.halted || stuck || (e.ShutdownCommand? && Reads(s)) || e.FrameFailure?)
            && Step(s, e).gate.invalid ==
               if stuck then Some(Quiescence) else if e.FrameFailure? then Some(EventFrame) else s.gate.invalid
  {
  }

  /** Of the same pieces: what shuts the gate, and when the settled replies enter its
      baseline. */
  lemma {:induction false} ShutTells(s: Session, e: Event)
    requires !e.StartPrompt? && !e.AgentCalls?
    ensures var settles := (e.AbortFinishes? && e.idle && e.abort in s.aborts && s.inflight.Some?)
                           || (e.IdleDecided? && s.prompt.Some? && s.prompt.value.phase == Idling)
                           || (e.RaceEnds? && Prompts(s) && s.inflight.None?);
            var t := Step(s, e);
            && (t.gate.closed <==>
              || s.gate.closed || settles || (e.ShutdownCommand? && Reads(s)) || e.FrameFailure?
              || (e.AbortFinishes? && e.abort in s.aborts && s.inflight.Some?))
            && t.gate.lastPrefix ==
               (if settles then Some(Baseline(s.gate.lastPrefix, Visible(s.host, |s.host|))) else s.gate.lastPrefix)
            && t.gate.loopsCompleted ==
               (if e.TurnEnds? && Prompts(s) && s.gate.loopsCompleted < s.gate.loopsStarted then
                  s.gate.loopsCompleted + 1
                else s.gate.loopsCompleted)
  {
  }

  /** Which aborts are launched and which are over. */
  lemma {:induction false} AbortsTell(s: Session, e: Event)
    requires !e.StartPrompt?
    ensures var launches := (e.TimerFires? && Prompts(s) && s.prompt.value.armed)
                            || ((e.AbortCommand? || e.ShutdownCommand?) && Reads(s))
                            || (e.FrameFailure? && e.aborting);
            && Step(s, e).nextAbort == s.nextAbort + (if launches then 1 else 0)
            && Step(s, e).aborts ==
               if launches then s.aborts + {s.nextAbort}
               else if e.AbortFinishes? then s.aborts - {e.abort}
               else s.aborts
    ensures Step(s, e).loop ==
            if e.AbortCommand? && Reads(s) then Awaiting(s.nextAbort)
            else if e.ShutdownCommand? && Reads(s) then Stopped
            else s.loop
  {
  }

  /** How the running call moves on. */
  lemma {:induction false} PhasesTell(s: Session, e: Event)
    requires s.prompt.Some? && !e.StartPrompt?
    ensures var p, t := s.prompt.value, Step(s, e);
            if t.prompt.None? then
              && e.CallReturns? && p.phase == Returning && s.resolved != []
              && s.resolved[|s.resolved| - 1].prompt.gen == p.gen
              && |t.returned| == |s.returned| + 1
              && t.returned[|s.returned|].settle == s.resolved[|s.resolved| - 1].settle
              && t.returned[|s.returned|].turnId == p.turnId
            else
              && t.prompt.value.phase ==
                 (if e.WallAbortReturns? && p.phase.Starting? && p.phase.abort !in s.aborts then Prompting
                  else if e.RaceEnds? && p.phase == Prompting && (p.workDone || s.inflight.None?) then
                    if s.inflight.Some? then Idling else Returning
                  else if e.IdleDecided? && p.phase == Idling then Draining(e.outcome == BecameIdle)
                  else if e.DrainEnds? && p.phase.Draining? then Returning
                  else p.phase)
  {
  }

  /** What is noted about the running call meanwhile. */
  lemma {:induction false} NotesTell(s: Session, e: Event)
    requires s.prompt.Some? && !e.StartPrompt?
    ensures var p, t := s.prompt.value, Step(s, e);
            t.prompt.Some? ==>
              && (t.prompt.value.failed <==>
                || p.failed
                || (e.WorkFinishes? && !e.accepted && p.phase == Prompting && !p.workDone)
                || (e.IdleDecided? && p.phase == Idling && e.outcome == IdleFailed))
              && (t.prompt.value.workDone <==> p.workDone || (e.WorkFinishes? && p.phase == Prompting))
              && (t.prompt.value.timedOut <==> p.timedOut || (e.TimerFires? && p.phase == Prompting && p.armed))
              && (t.prompt.value.armed <==>
                && p.armed && !(e.TimerFires? && p.phase == Prompting)
                && !(e.RaceEnds? && p.phase == Prompting && (p.workDone || s.inflight.None?)))
  {
  }

  /** What counts as an interruption of the running call: an abort launched while it runs,
      or a model call of its own that the abort signal or its deadline stops. */
  lemma {:induction false} InterruptedTells(s: Session, e: Event)
    requires s.prompt.Some? && !e.StartPrompt?
    ensures var p, t := s.prompt.value, Step(s, e);
            var launches := (e.TimerFires? && p.phase == Prompting && p.armed)
                            || ((e.AbortCommand? || e.ShutdownCommand?) && Reads(s))
                            || (e.FrameFailure? && e.aborting);
            var stopped := e.AgentCalls? && !s.gate.halted && !s.gate.closed
                           && (e.aborted || (s.gate.deadline.Some? && e.at >= s.gate.deadline.value));
            t.prompt.Some? ==> (t.prompt.value.interrupted <==> p.interrupted || launches || stopped)
  {
  }

  /** Every abort that is quiescing was launched under an id of its own. */
  lemma {:induction false} AbortsAreDistinct(events: seq<Event>, n: nat)
    requires n <= |events|
    ensures forall abort :: abort in Run(START, events, n).aborts ==> abort < Run(START, events, n).nextAbort
  {
    if n > 0 {
      AbortsAreDistinct(events, n - 1);
      AbortIsFresh(Run(START, events, n - 1), events[n - 1]);
    }
  }

  lemma {:induction false} AbortIsFresh(s: Session, e: Event)
    ensures Step(s, e).nextAbort >= s.nextAbort
    ensures Step(s, e).aborts <= s.aborts + {s.nextAbort}
    ensures s.nextAbort in Step(s, e).aborts && s.nextAbort !in s.aborts ==> Step(s, e).nextAbort > s.nextAbort
  {
  }

  /** A prompt call is left behind, with whether it timed out, exactly when its promise is
      resolved before it completes. */
  lemma {:induction false} StraysTell(s: Session, e: Event)
    requires !e.StartPrompt?
    ensures Step(s, e).strays ==
            if e.RaceEnds? && Prompts(s) && s.inflight.None? && !s.prompt.value.workDone then
              s.strays + [s.prompt.value.timedOut]
            else if e.StrayFinishes? && e.stray < |s.strays| then s.strays[..e.stray] + s.strays[e.stray + 1..]
            else s.strays
  {
  }

  /** What a settle tells besides its ending: it is ready only after a drain that followed
      an idle session and left the gate unhalted, and an error only if the prompt failed. */
  lemma {:induction false} SettleTells(s: Session, e: Event)
    requires |Step(s, e).resolved| > |s.resolved|
    ensures var t, settle := Step(s, e), Step(s, e).resolved[|s.resolved|].settle;
            && (e.DrainEnds? || e.AbortFinishes?) && s.prompt.Some?
            && (settle.ready <==> e.DrainEnds? && s.prompt.value.phase == Draining(true) && !s.gate.halted)
            && (settle.error <==> e.DrainEnds? && s.prompt.value.failed)
            && (settle.continuationPossible <==> !t.gate.halted) && settle.invalid == t.gate.invalid
            && settle.loopsStarted == t.gate.loopsStarted && settle.loopsCompleted == t.gate.loopsCompleted
  {
  }

  // ---------- Exactly one settle ----------

  /** The only way a promise is resolved: with a settle built from the gate as
      this very step leaves it, for the prompt that is in flight. */
  lemma {:induction false} StepResolves(s: Session, e: Event)
    ensures
      var t := Step(s, e);
      || t.resolved == s.resolved
      || (&& s.inflight.Some? && s.prompt.Some? && t.inflight.None?
          && |t.resolved| == |s.resolved| + 1
          && t.resolved[..|s.resolved|] == s.resolved
          && t.returned == s.returned
          && var r := t.resolved[|s.resolved|];
          && r.prompt == s.prompt.value && r.admitted == |s.gate.contexts|
          && t.gate.contexts == s.gate.contexts && t.gate.loopsStarted == s.gate.loopsStarted
          && r.settle == Built(t.gate, s.host, r.settle.ready, r.settle.error))
  {
  }

  /** A promise is resolved as a natural end exactly when the gate then holds neither an
      invalidation nor another ending and the prompt's last reply, if any, did not err. */
  lemma {:induction false} NaturalSettleIff(s: Session, e: Event)
    requires |Step(s, e).resolved| > |s.resolved|
    ensures var t := Step(s, e);
            t.resolved[|s.resolved|].settle.ended == Natural <==>
            && t.gate.invalid.None? && (t.gate.ended.None? || t.gate.ended == Some(Natural))
            && forall k :: t.gate.messageStartIndex <= k < |s.host| && s.host[k].message.AssistantMessage?
                           && (forall j :: k < j < |s.host| ==> !s.host[j].message.AssistantMessage?) ==>
                             !s.host[k].errored
  {
    StepResolves(s, e);
    var t := Step(s, e);
    var settle := t.resolved[|s.resolved|].settle;
    EndingTells(t.gate, s.host, settle.ready, settle.error);
    LastReplyOrNone(s.host, t.gate.messageStartIndex, |s.host|);
  }

  lemma {:induction false} LastReplyOrNone(host: seq<HostMessage>, start: nat, n: nat)
    requires n <= |host|
    ensures || (forall k :: start <= k < n ==> !host[k].message.AssistantMessage?)
            || exists k :: start <= k < n && host[k].message.AssistantMessage?
                           && forall j :: k < j < n ==> !host[j].message.AssistantMessage?
  {
    if n > start && !host[n - 1].message.AssistantMessage? {
      LastReplyOrNone(host, start, n - 1);
    } else if n > start {
      assert host[n - 1].message.AssistantMessage?;
    }
  }

  lemma {:induction false} StepExtendsContexts(s: Session, e: Event)
    ensures s.gate.contexts <= Step(s, e).gate.contexts
  {
  }

  /** Who has received which settle. */
  ghost predicate Delivery(s: Session) {
    && (forall k :: 0 <= k < |s.returned| ==> s.returned[k].gen < s.nextGen)
    && (forall k, l :: 0 <= k < l < |s.returned| ==> s.returned[k].gen < s.returned[l].gen)
    && (s.prompt.Some? ==> forall k :: 0 <= k < |s.returned| ==> s.returned[k].gen < s.prompt.value.gen)
    && (forall k :: 0 <= k < |s.returned| && s.returned[k].fromPromise ==>
      exists i :: 0 <= i < |s.resolved| && Answers(s.returned[k], s.resolved[i]))
    && (forall k, i :: 0 <= k < |s.returned| && !s.returned[k].fromPromise && 0 <= i < |s.resolved| ==>
      s.resolved[i].prompt.gen != s.returned[k].gen)
  }

  ghost predicate Answers(answer: Returned, r: Resolution) {
    answer.gen == r.prompt.gen && answer.settle == r.settle
  }

  /** How a step hands out settles and numbers calls. */
  ghost predicate HandsOut(s: Session, t: Session) {
    if t.returned == s.returned then
      && s.nextGen <= t.nextGen
      && (t.prompt.Some? && s.prompt.Some? ==> t.prompt.value.gen == s.prompt.value.gen)
      && (t.prompt.Some? && s.prompt.None? ==> t.prompt.value.gen == s.nextGen && t.nextGen == s.nextGen + 1)
    else
      && |t.returned| == |s.returned| + 1 && t.returned[..|s.returned|] == s.returned
      && t.prompt.None? && t.resolved == s.resolved
      && var answer := t.returned[|s.returned|];
      if answer.fromPromise then
        && s.prompt.Some? && answer.gen == s.prompt.value.gen && t.nextGen == s.nextGen
        && s.resolved != [] && Answers(answer, s.resolved[|s.resolved| - 1])
      else
        s.prompt.None? && answer.gen == s.nextGen && t.nextGen == s.nextGen + 1
  }

  lemma {:induction false} StepHandsOut(s: Session, e: Event)
    ensures HandsOut(s, Step(s, e))
  {
    if e.CallReturns? && CallReturned(s) != s {
      assert CallReturned(s).returned[|s.returned|].fromPromise;
    }
  }

  lemma {:induction false} StepKeepsDelivery(s: Session, e: Event)
    requires Shape(s) && Delivery(s)
    ensures Delivery(Step(s, e))
  {
    StepResolves(s, e);
    StepHandsOut(s, e);
    DeliveryGoesOn(s, Step(s, e));
  }

  /** A step that resolves at most the running prompt's promise. */
  ghost predicate ResolvesAtMost(s: Session, t: Session) {
    || t.resolved == s.resolved
    || (&& s.prompt.Some? && t.returned == s.returned && |t.resolved| == |s.resolved| + 1
        && t.resolved[..|s.resolved|] == s.resolved && t.resolved[|s.resolved|].prompt == s.prompt.value)
  }

  lemma {:induction false} DeliveryGoesOn(s: Session, t: Session)
    requires OneFlight(s) && Delivery(s) && HandsOut(s, t) && ResolvesAtMost(s, t)
    ensures Delivery(t)
  {
    StepKeepsAnswers(s, t);
    StepKeepsRefusals(s, t);
  }

  lemma {:induction false} StepKeepsAnswers(s: Session, t: Session)
    requires Delivery(s) && HandsOut(s, t) && |s.resolved| <= |t.resolved| && t.resolved[..|s.resolved|] == s.resolved
    ensures forall k :: 0 <= k < |t.returned| && t.returned[k].fromPromise ==>
              exists i :: 0 <= i < |t.resolved| && Answers(t.returned[k], t.resolved[i])
  {
    forall k | 0 <= k < |t.returned| && t.returned[k].fromPromise
      ensures exists i :: 0 <= i < |t.resolved| && Answers(t.returned[k], t.resolved[i])
    {
      if k < |s.returned| {
        assert t.returned[k] == s.returned[k];
        var i :| 0 <= i < |s.resolved| && Answers(s.returned[k], s.resolved[i]);
        assert t.resolved[i] == s.resolved[i];
      } else {
        assert Answers(t.returned[k], t.resolved[|s.resolved| - 1]);
      }
    }
  }

  lemma {:induction false} StepKeepsRefusals(s: Session, t: Session)
    requires OneFlight(s) && Delivery(s) && HandsOut(s, t) && ResolvesAtMost(s, t)
    ensures forall k, i :: 0 <= k < |t.returned| && !t.returned[k].fromPromise && 0 <= i < |t.resolved| ==>
              t.resolved[i].prompt.gen != t.returned[k].gen
  {
    forall k, i | 0 <= k < |t.returned| && !t.returned[k].fromPromise && 0 <= i < |t.resolved|
      ensures t.resolved[i].prompt.gen != t.returned[k].gen
    {
      if k < |s.returned| && i < |s.resolved| {
        assert t.returned[k] == s.returned[k] && t.resolved[i] == s.resolved[i];
      } else if i < |s.resolved| {
        assert t.resolved[i] == s.resolved[i];
      } else {
        assert t.returned[k] == s.returned[k];
      }
    }
  }

  lemma {:induction false} RunKeepsDelivery(s: Session, events: seq<Event>, n: nat)
    requires n <= |events| && SessionInv(s) && Delivery(s)
    ensures Delivery(Run(s, events, n))
  {
    if n > 0 {
      RunKeepsDelivery(s, events, n - 1);
      RunKeepsSession(s, events, n - 1);
      StepKeepsDelivery(Run(s, events, n - 1), events[n - 1]);
    }
  }

  /** Over every interleaving: a promise is never resolved twice; a call suspended
      on its own promise finds it resolved, exactly once, and so returns; and what
      every call got from a promise is the one settle that promise holds. */
  lemma {:induction false} ExactlyOneSettle(events: seq<Event>, n: nat)
    requires n <= |events|
    ensures
      var s := Run(START, events, n);
      && (forall i, j :: 0 <= i < j < |s.resolved| ==> s.resolved[i].prompt.gen != s.resolved[j].prompt.gen)
      && (s.prompt.Some? && s.prompt.value.phase.Returning? ==>
        && Step(s, CallReturns).prompt.None?
        && (exists i :: 0 <= i < |s.resolved| && s.resolved[i].prompt.gen == s.prompt.value.gen))
      && (s.inflight.Some? ==>
        && s.prompt.Some? && s.prompt.value.gen == s.inflight.value
        && (forall i :: 0 <= i < |s.resolved| ==> s.resolved[i].prompt.gen != s.inflight.value))
      && Delivery(s)
  {
    StartIsValid();
    RunKeepsSession(START, events, n);
    RunKeepsDelivery(START, events, n);
    var s := Run(START, events, n);
    if s.prompt.Some? && s.prompt.value.phase.Returning? {
      assert s.resolved[|s.resolved| - 1].prompt.gen == s.prompt.value.gen;
    }
  }

  lemma {:induction false} StartIsValid()
    ensures SessionInv(START) && Delivery(START) && Accounted(START)
  {
  }

  /** The overlap test inside `runControlledPrompt` never fires on its in-flight
      half: the command loop's own guard already excludes it. */
  lemma {:induction false} OverlapTestIsRedundant(events: seq<Event>, n: nat)
    requires n <= |events| && Run(START, events, n).prompt.None?
    ensures Run(START, events, n).inflight.None?
  {
    StartIsValid();
    RunKeepsSession(START, events, n);
  }

  // ---------- A settle reports its own prompt ----------

  lemma {:induction false} StepKeepsReports(s: Session, e: Event)
    requires SessionInv(s) && Reports(s)
    ensures Reports(Step(s, e))
  {
    var t := Step(s, e);
    StepResolves(s, e);
    StepExtendsContexts(s, e);
    forall i | 0 <= i < |t.resolved|
      ensures ReportsOwnLoops(t.gate.contexts, t.resolved[i])
    {
      if i < |s.resolved| {
        assert t.resolved[i] == s.resolved[i];
        assert ReportsOwnLoops(s.gate.contexts, s.resolved[i]);
      } else {
        NewSettleReports(s, e, t.resolved[i]);
      }
    }
  }

  lemma {:induction false} NewSettleReports(s: Session, e: Event, r: Resolution)
    requires SessionInv(s) && s.prompt.Some?
    requires r.prompt == s.prompt.value && r.admitted == |s.gate.contexts|
    requires Step(s, e).gate.contexts == s.gate.contexts && Step(s, e).gate.loopsStarted == s.gate.loopsStarted
    requires r.settle == Built(Step(s, e).gate, s.host, r.settle.ready, r.settle.error)
    ensures ReportsOwnLoops(Step(s, e).gate.contexts, r)
  {
    StepKeepsGate(s, e);
    assert Counters(Step(s, e).gate);
    assert CurrentRun(s.gate);
  }

  lemma {:induction false} RunKeepsReports(s: Session, events: seq<Event>, n: nat)
    requires n <= |events| && SessionInv(s) && Reports(s)
    ensures Reports(Run(s, events, n))
  {
    if n > 0 {
      RunKeepsReports(s, events, n - 1);
      RunKeepsSession(s, events, n - 1);
      StepKeepsReports(Run(s, events, n - 1), events[n - 1]);
    }
  }

  /** How many contexts had been admitted when the last call was answered. */
  function Answered(s: Session): nat {
    if |s.returned| == 0 then 0 else s.returned[|s.returned| - 1].admitted
  }

  /** Call `k` begins where the one before it ended; a call answered at once admits nothing. */
  predicate TakesOver(returned: seq<Returned>, k: nat)
    requires k < |returned|
  {
    && returned[k].base == (if k == 0 then 0 else returned[k - 1].admitted)
    && returned[k].base <= returned[k].admitted
    && (!returned[k].fromPromise ==> returned[k].base == returned[k].admitted)
  }

  /** The calls divide the admitted contexts among them, in the order of their answers. */
  ghost predicate Ledger(s: Session) {
    && (forall k :: 0 <= k < |s.returned| ==> TakesOver(s.returned, k))
    && (forall k :: 0 <= k < |s.returned| && s.returned[k].fromPromise ==>
      ReturnsOwnLoops(s.gate.contexts, s.returned[k]))
  }

  /** What is left over belongs to the running prompt. */
  ghost predicate Remainder(s: Session) {
    && (s.prompt.None? ==> |s.gate.contexts| == Answered(s))
    && (s.prompt.Some? ==> s.prompt.value.base == Answered(s))
    && (s.prompt.Some? && s.inflight.None? && s.resolved != [] ==>
      var r := s.resolved[|s.resolved| - 1];
      && r.prompt.turnId == s.prompt.value.turnId && r.prompt.base == s.prompt.value.base
      && r.admitted == |s.gate.contexts|)
  }

  /** Every other piece leaves the call and the contexts alone, but may resolve its promise. */
  lemma {:induction false} PieceKeepsCall(s: Session, e: Event)
    requires !e.StartPrompt? && !e.CallReturns? && !e.AgentCalls?
    ensures var t := Step(s, e);
            && t.returned == s.returned && t.gate.contexts == s.gate.contexts
            && (t.prompt.None? <==> s.prompt.None?)
            && (t.prompt.Some? ==>
              t.prompt.value.turnId == s.prompt.value.turnId && t.prompt.value.base == s.prompt.value.base)
            && (t.inflight.None? && s.inflight.None? ==> t.resolved == s.resolved)
  {
  }

  lemma {:induction false} PieceKeepsRemainder(s: Session, e: Event)
    requires SessionInv(s) && Remainder(s) && !e.StartPrompt? && !e.CallReturns? && !e.AgentCalls?
    ensures Remainder(Step(s, e))
  {
    PieceKeepsCall(s, e);
    StepResolves(s, e);
  }

  lemma {:induction false} AgentCallKeepsRemainder(s: Session, e: Event)
    requires SessionInv(s) && Remainder(s) && e.AgentCalls?
    ensures Remainder(AgentCalled(s, e))
  {
    assert s.prompt.None? || s.inflight.None? ==> s.gate.closed;
  }

  lemma {:induction false} StartKeepsRemainder(s: Session, e: Event)
    requires SessionInv(s) && Remainder(s) && e.StartPrompt?
    ensures Remainder(Started(s, e))
  {
  }

  lemma {:induction false} ReturnKeepsRemainder(s: Session)
    requires SessionInv(s) && Remainder(s)
    ensures Remainder(CallReturned(s))
  {
  }

  lemma {:induction false} StepKeepsRemainder(s: Session, e: Event)
    requires SessionInv(s) && Remainder(s)
    ensures Remainder(Step(s, e))
  {
    match e
    case StartPrompt(_, _, _, _, _, _) => StartKeepsRemainder(s, e);
    case AgentCalls(_, _, _) => AgentCallKeepsRemainder(s, e);
    case CallReturns => ReturnKeepsRemainder(s);
    case _ => PieceKeepsRemainder(s, e);
  }

  /** The answer continues the ledger where it stood. */
  ghost predicate GoesOn(s: Session, r: Returned) {
    && r.base == Answered(s) && r.base <= r.admitted && (!r.fromPromise ==> r.base == r.admitted)
    && (r.fromPromise ==> ReturnsOwnLoops(s.gate.contexts, r))
  }

  lemma {:induction false} StartAnswers(s: Session, e: Event)
    requires OneFlight(s) && Remainder(s) && e.StartPrompt? && Started(s, e).returned != s.returned
    ensures Started(s, e).gate.contexts == s.gate.contexts && GoesOn(s, Started(s, e).returned[|s.returned|])
  {
  }

  lemma {:induction false} ReturnAnswers(s: Session)
    requires OneFlight(s) && Reports(s) && Remainder(s) && CallReturned(s).returned != s.returned
    ensures CallReturned(s).gate.contexts == s.gate.contexts && GoesOn(s, CallReturned(s).returned[|s.returned|])
  {
    assert ReportsOwnLoops(s.gate.contexts, s.resolved[|s.resolved| - 1]);
  }

  lemma {:induction false} OnlyCallsAnswer(s: Session, e: Event)
    requires Step(s, e).returned != s.returned
    ensures e.StartPrompt? || e.CallReturns?
  {
  }

  lemma {:induction false} StepAnswers(s: Session, e: Event)
    requires OneFlight(s) && Reports(s) && Remainder(s) && Step(s, e).returned != s.returned
    ensures Step(s, e).gate.contexts == s.gate.contexts && GoesOn(s, Step(s, e).returned[|s.returned|])
  {
    OnlyCallsAnswer(s, e);
    if e.CallReturns? {
      ReturnAnswers(s);
    } else {
      StartAnswers(s, e);
    }
  }

  lemma {:induction false} LedgerGrows(s: Session, t: Session)
    requires Ledger(s) && s.gate.contexts <= t.gate.contexts
    requires s.returned <= t.returned && |t.returned| <= |s.returned| + 1
    requires |t.returned| > |s.returned| ==> t.gate.contexts == s.gate.contexts && GoesOn(s, t.returned[|s.returned|])
    ensures Ledger(t)
  {
    forall k | 0 <= k < |t.returned|
      ensures TakesOver(t.returned, k)
    {
      assert k < |s.returned| ==> TakesOver(s.returned, k);
      assert k > 0 ==> t.returned[k - 1] == s.returned[k - 1];
    }
    forall k | 0 <= k < |t.returned| && t.returned[k].fromPromise
      ensures ReturnsOwnLoops(t.gate.contexts, t.returned[k])
    {
      if k < |s.returned| {
        assert t.returned[k] == s.returned[k];
        assert ReturnsOwnLoops(s.gate.contexts, s.returned[k]);
      }
    }
  }

  ghost predicate Accounted(s: Session) {
    Reports(s) && Ledger(s) && Remainder(s)
  }

  lemma {:induction false} StepKeepsAccounts(s: Session, e: Event)
    requires SessionInv(s) && Accounted(s)
    ensures Accounted(Step(s, e))
  {
    StepKeepsReports(s, e);
    StepKeepsRemainder(s, e);
    StepExtendsContexts(s, e);
    StepAppends(s, e);
    if Step(s, e).returned != s.returned {
      StepAnswers(s, e);
    }
    LedgerGrows(s, Step(s, e));
  }

  lemma {:induction false} RunKeepsAccounts(s: Session, events: seq<Event>, n: nat)
    requires n <= |events| && SessionInv(s) && Accounted(s)
    ensures Accounted(Run(s, events, n))
  {
    if n > 0 {
      RunKeepsAccounts(s, events, n - 1);
      RunKeepsSession(s, events, n - 1);
      StepKeepsAccounts(Run(s, events, n - 1), events[n - 1]);
    }
  }

  /** Every settle that came out of a promise counts exactly the contexts admitted
      for its own prompt, and what the calls were answered divides the admitted
      contexts among them without a gap. */
  lemma {:induction false} SettlesCountTheirOwnLoops(events: seq<Event>, n: nat)
    requires n <= |events|
    ensures var s := Run(START, events, n);
            && Ledger(s)
            && (forall i :: 0 <= i < |s.resolved| ==> ReportsOwnLoops(s.gate.contexts, s.resolved[i]))
            && (s.prompt.None? ==> |s.gate.contexts| == Answered(s))
  {
    StartIsValid();
    RunKeepsAccounts(START, events, n);
  }

  /** The settle of a refused call is built from counters that still belong to the
      call before it: it counts its own loops, none, exactly when those are zero. */
  lemma {:induction false} RefusedSettleCountsOwnIff(events: seq<Event>, n: nat, e: Event)
    requires n <= |events| && e.StartPrompt?
    requires var s := Run(START, events, n);
             |Started(s, e).returned| > |s.returned|
    ensures var s := Run(START, events, n);
            && !Started(s, e).returned[|s.returned|].fromPromise
            && (ReturnsOwnLoops(Started(s, e).gate.contexts, Started(s, e).returned[|s.returned|])
                <==> s.gate.loopsStarted == 0)
  {
    StartIsValid();
    RunKeepsSession(START, events, n);
    assert Counters(Run(START, events, n).gate);
  }

  // ----- An input for which it is not its own -----

  /** A prompt without walls is entered and admitted once. */
  const ADMITTED: seq<Event> := [StartPrompt("a", 1, None, None, 0, false), AgentCalls([], false, 0)]

  /** Its call returns, an event frame cannot be written, and another prompt is sent. */
  const REFUSED: seq<Event> := [CallReturns, FrameFailure(true), StartPrompt("b", 1, None, None, 0, false)]

  lemma {:induction false} OneLoopAdmitted()
    ensures var s := Run(START, ADMITTED, 2);
            && s.prompt.Some? && s.prompt.value.phase.Prompting? && !s.prompt.value.workDone
            && s.inflight.Some? && s.aborts == {} && s.loop.Reading? && s.returned == [] && s.resolved == []
            && s.gate.loopsStarted == 1 && s.gate.contexts == [Gated("a", 1, [])]
  {
    var s0, s1 := Run(START, ADMITTED, 0), Run(START, ADMITTED, 1);
    assert s0 == START;
    assert s1 == Step(s0, ADMITTED[0]);
    assert s1.gate.turnId == "a" && s1.gate.contexts == [] && s1.gate.lastPrefix.None?;
  }

  lemma {:induction false} RefusedAfterReturn(s: Session)
    requires CallReturned(s).prompt.None? && CallReturned(s).inflight.None? && CallReturned(s).loop.Reading?
    ensures var t := Run(s, REFUSED, 3);
            && |t.returned| == |CallReturned(s).returned| + 1
            && t.gate.contexts == s.gate.contexts
            && var r := t.returned[|t.returned| - 1];
            && r.turnId == "b" && !r.fromPromise && r.settle.loopsStarted == s.gate.loopsStarted
            && r.base == r.admitted
  {
    var s1, s2 := Run(s, REFUSED, 1), Run(s, REFUSED, 2);
    assert s1 == Step(Run(s, REFUSED, 0), REFUSED[0]);
    assert s2 == Step(s1, REFUSED[1]);
    assert Run(s, REFUSED, 3) == Step(s2, REFUSED[2]);
  }

  lemma {:induction false} RefusedAfterCompletion(s: Session)
    requires s.prompt.Some? && s.prompt.value.phase.Prompting? && !s.prompt.value.workDone && s.inflight.Some?
    requires s.loop.Reading? && s.returned == []
    ensures var t := Run(Completed(s), REFUSED, 3);
            && |t.returned| == 2 && t.gate.contexts == s.gate.contexts
            && t.returned[1].turnId == "b" && !t.returned[1].fromPromise
            && t.returned[1].settle.loopsStarted == s.gate.loopsStarted
            && t.returned[1].base == t.returned[1].admitted
  {
    CompletionSettles(s);
    CompletionReturns(s);
    RefusedAfterReturn(Completed(s));
  }

  /** A reachable run in which the refused prompt `b`, for which nothing was ever
      admitted, is answered with the loop of prompt `a`. */
  lemma {:induction false} RefusedSettleMiscounts()
    ensures var s := Run(START, ADMITTED + (COMPLETION + REFUSED), 9);
            && |s.returned| == 2 && s.returned[1].turnId == "b" && !s.returned[1].fromPromise
            && s.returned[1].settle.loopsStarted == 1
            && s.gate.contexts == [Gated("a", 1, [])]
            && !ReturnsOwnLoops(s.gate.contexts, s.returned[1])
  {
    var s2 := Run(START, ADMITTED, 2);
    OneLoopAdmitted();
    RefusedAfterCompletion(s2);
    RunThroughCompletion(START, ADMITTED, REFUSED);
  }

  lemma {:induction false} RunThroughCompletion(s: Session, before: seq<Event>, after: seq<Event>)
    ensures Run(s, before + (COMPLETION + after), |before| + (4 + |after|)) ==
            Run(Completed(Run(s, before, |before|)), after, |after|)
  {
    RunInThree(s, before, COMPLETION, after);
    RunCompletes(Run(s, before, |before|));
  }

  lemma {:induction false} RunInThree(s: Session, first: seq<Event>, middle: seq<Event>, last: seq<Event>)
    ensures Run(s, first + (middle + last), |first| + (|middle| + |last|)) ==
            Run(Run(Run(s, first, |first|), middle, |middle|), last, |last|)
  {
    var t := Run(s, first, |first|);
    RunAppend(s, first, middle + last, |middle| + |last|);
    RunAppend(t, middle, last, |last|);
  }

  // ----- The count by turn id -----

  /** How many of the first `n` contexts were admitted under this turn id. */
  function CountUnder(contexts: seq<Gated>, turnId: string, n: nat): (count: nat)
    requires n <= |contexts|
    ensures count <= n
  {
    if n == 0 then 0
    else CountUnder(contexts, turnId, n - 1) + (if contexts[n - 1].turnId == turnId then 1 else 0)
  }

  lemma {:induction false} CountUnderOne(contexts: seq<Gated>, turnId: string, own: string, base: nat, n: nat)
    requires base <= n <= |contexts| && forall i :: base <= i < n ==> contexts[i].turnId == own
    ensures CountUnder(contexts, turnId, n) ==
            CountUnder(contexts, turnId, base) + (if own == turnId then n - base else 0)
  {
    if n > base {
      CountUnderOne(contexts, turnId, own, base, n - 1);
    }
  }

  /** The first `k` answers took this many contexts. */
  function AnsweredBy(returned: seq<Returned>, k: nat): nat
    requires k <= |returned|
  {
    if k == 0 then 0 else returned[k - 1].admitted
  }

  lemma {:induction false} CountUpToAnswer(s: Session, i: nat, k: nat)
    requires Ledger(s) && i < |s.returned| && k <= |s.returned|
    requires forall j :: 0 <= j < |s.returned| && j != i ==> s.returned[j].turnId != s.returned[i].turnId
    ensures AnsweredBy(s.returned, k) <= |s.gate.contexts|
    ensures CountUnder(s.gate.contexts, s.returned[i].turnId, AnsweredBy(s.returned, k)) ==
            if i < k then s.returned[i].admitted - s.returned[i].base else 0
  {
    if k > 0 {
      CountUpToAnswer(s, i, k - 1);
      var r := s.returned[k - 1];
      assert TakesOver(s.returned, k - 1);
      if r.fromPromise {
        assert ReturnsOwnLoops(s.gate.contexts, r);
      }
      CountUnderOne(s.gate.contexts, s.returned[i].turnId, r.turnId, r.base, r.admitted);
    }
  }

  /** The contexts that no answer has accounted for yet are the running prompt's. */
  lemma {:induction false} CountBeyondAnswers(s: Session, turnId: string)
    requires SessionInv(s) && Remainder(s) && Answered(s) <= |s.gate.contexts|
    requires s.prompt.Some? ==> s.prompt.value.turnId != turnId
    ensures CountUnder(s.gate.contexts, turnId, |s.gate.contexts|) ==
            CountUnder(s.gate.contexts, turnId, Answered(s))
  {
    if s.prompt.Some? {
      var base := s.prompt.value.base;
      forall k | base <= k < |s.gate.contexts|
        ensures s.gate.contexts[k].turnId == s.prompt.value.turnId
      {
        assert CurrentRun(s.gate);
      }
      CountUnderOne(s.gate.contexts, turnId, s.prompt.value.turnId, base, |s.gate.contexts|);
    }
  }

  lemma {:induction false} CountOfAnswer(s: Session, i: nat)
    requires Ledger(s) && i < |s.returned|
    requires forall j :: 0 <= j < |s.returned| && j != i ==> s.returned[j].turnId != s.returned[i].turnId
    ensures Answered(s) <= |s.gate.contexts|
    ensures CountUnder(s.gate.contexts, s.returned[i].turnId, Answered(s)) ==
            if s.returned[i].fromPromise then s.returned[i].settle.loopsStarted else 0
  {
    CountUpToAnswer(s, i, |s.returned|);
    assert TakesOver(s.returned, i);
    if s.returned[i].fromPromise {
      assert ReturnsOwnLoops(s.gate.contexts, s.returned[i]);
    }
  }

  /** When no turn id is used twice, a settle that came out of a promise reports as
      many loops as there are contexts under its turn id in the whole session, and
      for a call answered at once there is none. */
  lemma {:induction false} SettlesCountTheirTurn(events: seq<Event>, n: nat, i: nat)
    requires n <= |events| && i < |Run(START, events, n).returned|
    requires var s := Run(START, events, n);
             && (forall j :: 0 <= j < |s.returned| && j != i ==> s.returned[j].turnId != s.returned[i].turnId)
             && (s.prompt.Some? ==> s.prompt.value.turnId != s.returned[i].turnId)
    ensures var s := Run(START, events, n);
            CountUnder(s.gate.contexts, s.returned[i].turnId, |s.gate.contexts|) ==
            if s.returned[i].fromPromise then s.returned[i].settle.loopsStarted else 0
  {
    StartIsValid();
    RunKeepsSession(START, events, n);
    RunKeepsAccounts(START, events, n);
    CountOfAnswer(Run(START, events, n), i);
    CountBeyondAnswers(Run(START, events, n), Run(START, events, n).returned[i].turnId);
  }

  /** The count a caller receives is final: nothing is admitted for a prompt
      between its settle and its return. */
  lemma {:induction false} NothingAdmittedAfterTheSettle(s: Session, e: Event)
    requires SessionInv(s) && s.prompt.Some? && s.inflight.None? && !e.StartPrompt?
    ensures Step(s, e).gate.contexts == s.gate.contexts
  {
    if e.AgentCalls? {
      assert s.gate.closed;
    }
  }

  // ---------- Invalid sessions ----------

  /** Settles produced from here on are errors without continuation. */
  ghost predicate OnlyTerminal(s: Session, t: Session) {
    && |s.resolved| <= |t.resolved| && |s.returned| <= |t.returned|
    && (forall i :: |s.resolved| <= i < |t.resolved| ==> Terminal(t.resolved[i].settle))
    && (forall k :: |s.returned| <= k < |t.returned| && !t.returned[k].fromPromise ==> Terminal(t.returned[k].settle))
  }

  lemma {:induction false} StepAppends(s: Session, e: Event)
    ensures s.resolved <= Step(s, e).resolved && |Step(s, e).resolved| <= |s.resolved| + 1
    ensures s.returned <= Step(s, e).returned && |Step(s, e).returned| <= |s.returned| + 1
  {
    StepResolves(s, e);
    StepHandsOut(s, e);
  }

  lemma {:induction false} InvalidStays(s: Session, e: Event)
    requires s.gate.invalid.Some?
    ensures Step(s, e).gate.invalid.Some?
  {
  }

  /** A call answered at once by an invalid session gets a terminal settle. */
  lemma {:induction false} InvalidRefusal(s: Session, e: Event)
    requires Latches(s.gate) && s.gate.invalid.Some? && Step(s, e).returned != s.returned
    ensures var r := Step(s, e).returned[|s.returned|]; r.fromPromise || Terminal(r.settle)
  {
    OnlyCallsAnswer(s, e);
  }

  lemma {:induction false} InvalidSettle(gate: Gate, settle: Settle, host: seq<HostMessage>)
    requires Latches(gate) && gate.invalid.Some? && settle == Built(gate, host, settle.ready, settle.error)
    ensures Terminal(settle)
  {
  }

  lemma {:induction false} InvalidStepIsTerminal(s: Session, e: Event)
    requires Latches(s.gate) && Latches(Step(s, e).gate) && s.gate.invalid.Some?
    ensures Step(s, e).gate.invalid.Some? && OnlyTerminal(s, Step(s, e))
  {
    var t := Step(s, e);
    StepResolves(s, e);
    StepAppends(s, e);
    InvalidStays(s, e);
    if t.returned != s.returned {
      InvalidRefusal(s, e);
    }
    if t.resolved != s.resolved {
      InvalidSettle(t.gate, t.resolved[|s.resolved|].settle, s.host);
    }
    OnlyTerminalGrows(s, t);
  }

  lemma {:induction false} OnlyTerminalGrows(s: Session, t: Session)
    requires s.resolved <= t.resolved && |t.resolved| <= |s.resolved| + 1
    requires s.returned <= t.returned && |t.returned| <= |s.returned| + 1
    requires t.resolved != s.resolved ==> Terminal(t.resolved[|s.resolved|].settle)
    requires t.returned != s.returned ==>
               t.returned[|s.returned|].fromPromise || Terminal(t.returned[|s.returned|].settle)
    ensures OnlyTerminal(s, t)
  {
  }

  lemma {:induction false} TerminalComposes(s: Session, t: Session, u: Session)
    requires OnlyTerminal(s, t) && OnlyTerminal(t, u) && t.resolved <= u.resolved && t.returned <= u.returned
    ensures OnlyTerminal(s, u)
  {
  }

  /** Once the gate is invalid, in whatever order the parties act, every later
      settle is an error and rules out continuation. */
  lemma {:induction false} InvalidSessionsOnlyFail(s: Session, events: seq<Event>, n: nat)
    requires n <= |events| && GateInv(s.gate) && s.gate.invalid.Some?
    ensures GateInv(Run(s, events, n).gate) && Run(s, events, n).gate.invalid.Some?
    ensures OnlyTerminal(s, Run(s, events, n))
  {
    if n > 0 {
      var before, e := Run(s, events, n - 1), events[n - 1];
      InvalidSessionsOnlyFail(s, events, n - 1);
      StepKeepsGate(before, e);
      InvalidStepIsTerminal(before, e);
      StepAppends(before, e);
      TerminalComposes(s, before, Step(before, e));
    }
  }

  // ---------- Calls answered at once ----------

  /** A settle that was handed back at once stops the controller. */
  ghost predicate RefusalsStop(s: Session) {
    forall k :: 0 <= k < |s.returned| && !s.returned[k].fromPromise ==>
      s.returned[k].settle.ended == Error || !s.returned[k].settle.ready
  }

  lemma {:induction false} StepKeepsRefusalsStop(s: Session, e: Event)
    requires GateInv(s.gate) && RefusalsStop(s)
    ensures RefusalsStop(Step(s, e))
  {
    StepHandsOut(s, e);
    if e.StartPrompt? && Started(s, e).returned != s.returned {
      RefusalStops(s, e);
    }
  }

  lemma {:induction false} RefusalStops(s: Session, e: Event)
    requires GateInv(s.gate) && e.StartPrompt? && |Started(s, e).returned| > |s.returned|
    ensures var settle := Started(s, e).returned[|s.returned|].settle; settle.ended == Error || !settle.ready
  {
  }

  lemma {:induction false} RefusalsAlwaysStop(events: seq<Event>, n: nat)
    requires n <= |events|
    ensures RefusalsStop(Run(START, events, n))
  {
    if n > 0 {
      RefusalsAlwaysStop(events, n - 1);
      StartIsValid();
      RunKeepsSession(START, events, n - 1);
      StepKeepsRefusalsStop(Run(START, events, n - 1), events[n - 1]);
    }
  }

  // ---------- Bounds the evidence contract relies on ----------

  predicate SettleWithin(settle: Settle, maxTurns: int) {
    0 <= settle.loopsCompleted <= settle.loopsStarted <= maxTurns
  }

  ghost predicate Within(s: Session, maxTurns: int) {
    && Budget(s.gate) <= maxTurns
    && (forall i :: 0 <= i < |s.resolved| ==> SettleWithin(s.resolved[i].settle, maxTurns))
    && (forall k :: 0 <= k < |s.returned| ==> SettleWithin(s.returned[k].settle, maxTurns))
  }

  lemma {:induction false} StepKeepsBudget(s: Session, e: Event)
    ensures Step(s, e).gate.maxTurns == s.gate.maxTurns || (e.StartPrompt? && Step(s, e).gate.maxTurns == e.maxTurns)
  {
  }

  lemma {:induction false} StepReturnsWithin(s: Session, e: Event, maxTurns: nat)
    requires SessionInv(s) && Within(s, maxTurns) && (e.StartPrompt? ==> e.maxTurns <= maxTurns)
    requires |Step(s, e).returned| > |s.returned|
    ensures SettleWithin(Step(s, e).returned[|s.returned|].settle, maxTurns)
  {
    StepHandsOut(s, e);
    if e.StartPrompt? {
      StartReturnsWithin(s, e, maxTurns);
    } else {
      assert Answers(Step(s, e).returned[|s.returned|], s.resolved[|s.resolved| - 1]);
    }
  }

  lemma {:induction false} StartReturnsWithin(s: Session, e: Event, maxTurns: nat)
    requires GateInv(s.gate) && Budget(s.gate) <= maxTurns && e.StartPrompt? && e.maxTurns <= maxTurns
    requires |Started(s, e).returned| > |s.returned|
    ensures SettleWithin(Started(s, e).returned[|s.returned|].settle, maxTurns)
  {
    assert Counters(s.gate);
  }

  lemma {:induction false} StepResolvesWithin(s: Session, e: Event, maxTurns: nat)
    requires SessionInv(s) && Within(s, maxTurns) && (e.StartPrompt? ==> e.maxTurns <= maxTurns)
    requires |Step(s, e).resolved| > |s.resolved|
    ensures SettleWithin(Step(s, e).resolved[|s.resolved|].settle, maxTurns)
  {
    StepResolves(s, e);
    StepKeepsGate(s, e);
    StepKeepsBudget(s, e);
    assert Counters(Step(s, e).gate);
  }

  lemma {:induction false} WithinGrows(s: Session, t: Session, maxTurns: nat)
    requires Within(s, maxTurns) && Budget(t.gate) <= maxTurns
    requires s.resolved <= t.resolved && |t.resolved| <= |s.resolved| + 1
    requires |t.resolved| > |s.resolved| ==> SettleWithin(t.resolved[|s.resolved|].settle, maxTurns)
    requires s.returned <= t.returned && |t.returned| <= |s.returned| + 1
    requires |t.returned| > |s.returned| ==> SettleWithin(t.returned[|s.returned|].settle, maxTurns)
    ensures Within(t, maxTurns)
  {
  }

  lemma {:induction false} StepKeepsWithin(s: Session, e: Event, maxTurns: nat)
    requires SessionInv(s) && Within(s, maxTurns) && (e.StartPrompt? ==> e.maxTurns <= maxTurns)
    ensures Within(Step(s, e), maxTurns)
  {
    var t := Step(s, e);
    StepAppends(s, e);
    StepKeepsBudget(s, e);
    if |t.resolved| > |s.resolved| {
      StepResolvesWithin(s, e, maxTurns);
    }
    if |t.returned| > |s.returned| {
      StepReturnsWithin(s, e, maxTurns);
    }
    WithinGrows(s, t, maxTurns);
  }

  /** When no prompt asks for more than `maxTurns`, no settle reports more. */
  lemma {:induction false} SettlesStayWithinBudget(events: seq<Event>, n: nat, maxTurns: nat)
    requires n <= |events| && forall k :: 0 <= k < n && events[k].StartPrompt? ==> events[k].maxTurns <= maxTurns
    ensures Within(Run(START, events, n), maxTurns)
  {
    if n > 0 {
      SettlesStayWithinBudget(events, n - 1, maxTurns);
      StartIsValid();
      RunKeepsSession(START, events, n - 1);
      StepKeepsWithin(Run(START, events, n - 1), events[n - 1], maxTurns);
    }
  }

  // ---------- Whose timeout? ----------

  /** If prompt `gen` settled as `timeout`, something of its own interrupted it. */
  ghost predicate OwnTimeout(s: Session, gen: nat) {
    forall i :: 0 <= i < |s.resolved| && s.resolved[i].prompt.gen == gen && s.resolved[i].settle.ended == Timeout ==>
      s.resolved[i].prompt.interrupted
  }

  /** Nothing but its own interruption can time the running prompt out. */
  ghost predicate Calm(s: Session, gen: nat) {
    s.prompt.Some? && s.prompt.value.gen == gen && !s.prompt.value.interrupted ==>
      s.aborts == {} && s.gate.ended != Some(Timeout)
  }

  ghost predicate Undisturbed(s: Session, gen: nat) {
    && gen < s.nextGen
    && OwnTimeout(s, gen)
    && Calm(s, gen)
  }

  lemma {:induction false} StepKeepsCalm(s: Session, e: Event, gen: nat)
    requires gen < s.nextGen && Calm(s, gen)
    ensures Calm(Step(s, e), gen)
  {
  }

  /** A settle is built from the gate as the very step leaves it, calm or not. */
  lemma {:induction false} StepSettlesCalmly(s: Session, e: Event, gen: nat)
    requires gen < s.nextGen && Calm(s, gen) && s.prompt.Some? && s.prompt.value.gen == gen
    requires !s.prompt.value.interrupted && s.inflight.Some? && Step(s, e).inflight.None?
    ensures Step(s, e).gate.ended != Some(Timeout)
  {
  }

  lemma {:induction false} StepKeepsUndisturbed(s: Session, e: Event, gen: nat)
    requires Shape(s) && Undisturbed(s, gen)
    ensures Undisturbed(Step(s, e), gen)
  {
    var t := Step(s, e);
    StepResolves(s, e);
    StepKeepsCalm(s, e, gen);
    assert s.nextGen <= t.nextGen;
    if t.resolved != s.resolved {
      var r := t.resolved[|s.resolved|];
      if r.prompt.gen == gen && !r.prompt.interrupted {
        StepSettlesCalmly(s, e, gen);
        assert r.settle.ended != Timeout;
      }
      OwnTimeoutGrows(s, t, gen);
    }
  }

  lemma {:induction false} OwnTimeoutGrows(s: Session, t: Session, gen: nat)
    requires OwnTimeout(s, gen) && |t.resolved| == |s.resolved| + 1 && t.resolved[..|s.resolved|] == s.resolved
    requires var r := t.resolved[|s.resolved|];
             r.prompt.gen == gen && r.settle.ended == Timeout ==> r.prompt.interrupted
    ensures OwnTimeout(t, gen)
  {
    forall i | 0 <= i < |t.resolved| && t.resolved[i].prompt.gen == gen && t.resolved[i].settle.ended == Timeout
      ensures t.resolved[i].prompt.interrupted
    {
      assert i < |s.resolved| ==> t.resolved[i] == s.resolved[i];
    }
  }

  lemma {:induction false} RunKeepsUndisturbed(s: Session, events: seq<Event>, n: nat, gen: nat)
    requires n <= |events| && SessionInv(s) && Undisturbed(s, gen)
    ensures Undisturbed(Run(s, events, n), gen)
  {
    if n > 0 {
      RunKeepsUndisturbed(s, events, n - 1, gen);
      RunKeepsSession(s, events, n - 1);
      StepKeepsUndisturbed(Run(s, events, n - 1), events[n - 1], gen);
    }
  }

  /** A run in which an abort left over from before the prompt ends it. */
  function LateAbort(abort: nat): seq<Event> {
    [AbortFinishes(abort, true)] + COMPLETION
  }

  lemma {:induction false} LeftoverAbortTimesOut(s: Session, abort: nat)
    requires abort in s.aborts && s.inflight.Some? && s.prompt.Some?
    requires s.prompt.value.phase.Prompting? && !s.prompt.value.workDone && !s.prompt.value.interrupted
    requires s.gate.ended.None? && s.gate.invalid.None?
    ensures var t := Run(s, LateAbort(abort), 5);
            && |t.resolved| == |s.resolved| + 1
            && var r := t.resolved[|s.resolved|];
            && r.prompt.gen == s.prompt.value.gen && !r.prompt.interrupted && r.settle.ended == Timeout
    ensures !OwnTimeout(Run(s, LateAbort(abort), 5), s.prompt.value.gen)
  {
    var s1 := AbortDone(s, abort, true);
    assert s1.gate.ended == Some(Timeout) && s1.gate.invalid.None? && s1.prompt == s.prompt && s1.inflight.Some?;
    CompletionSettles(s1);
    RunCompletes(s1);
    RunAppend(s, [AbortFinishes(abort, true)], COMPLETION, 4);
    assert Run(s, [AbortFinishes(abort, true)], 0) == s;
    var t := Run(s, LateAbort(abort), 5);
    assert t == Completed(s1);
    assert t.resolved[|s.resolved|].settle.ended == Timeout;
  }

  /** A prompt whose timer fires as it runs; the abort is not awaited. */
  const TIMED: seq<Event> := [
    StartPrompt("a", 1, Some(1), None, 0, false), AgentCalls([], false, 0), TimerFires]

  /** Its call returns before the abort is done, and another prompt is sent. */
  const NEXT_PROMPT: seq<Event> := [CallReturns, StartPrompt("b", 1, None, None, 0, false)]

  lemma {:induction false} TimerLeavesAnAbort()
    ensures var s := Run(START, TIMED, 3);
            && s.prompt.Some? && s.prompt.value.phase.Prompting? && !s.prompt.value.workDone && s.inflight.Some?
            && s.aborts == {0} && s.loop.Reading? && !s.gate.halted && s.gate.invalid.None?
            && s.nextGen == 1 && s.resolved == [] && s.gate.cumulativeLoopsStarted == 1
  {
    var s0, s1, s2 := Run(START, TIMED, 0), Run(START, TIMED, 1), Run(START, TIMED, 2);
    assert s0 == START;
    assert s1 == Step(s0, TIMED[0]);
    assert s1.gate.turnId == "a" && s1.gate.contexts == [] && s1.gate.lastPrefix.None?;
    assert s2 == Step(s1, TIMED[1]);
  }

  lemma {:induction false} NextPromptEnters(s: Session)
    requires var t := CallReturned(s);
             t.prompt.None? && t.inflight.None? && t.loop.Reading? && !t.gate.halted && t.gate.invalid.None?
             && (t.gate.cumulativeLoopsStarted != 0)
    ensures var t := Run(s, NEXT_PROMPT, 2);
            && t.prompt.Some? && t.prompt.value.phase.Prompting? && !t.prompt.value.workDone
            && !t.prompt.value.interrupted && t.prompt.value.gen == CallReturned(s).nextGen && t.inflight.Some?
            && t.aborts == CallReturned(s).aborts && t.resolved == CallReturned(s).resolved
            && t.gate.ended.None? && t.gate.invalid.None?
  {
    var s1 := Run(s, NEXT_PROMPT, 1);
    assert s1 == Step(Run(s, NEXT_PROMPT, 0), NEXT_PROMPT[0]);
    assert Run(s, NEXT_PROMPT, 2) == Step(s1, NEXT_PROMPT[1]);
  }

  lemma {:induction false} NextPromptLeftover(s: Session)
    requires s.prompt.Some? && s.prompt.value.phase.Prompting? && !s.prompt.value.workDone && s.inflight.Some?
    requires s.aborts == {0} && s.loop.Reading? && !s.gate.halted && s.gate.invalid.None?
    requires s.nextGen == 1 && s.resolved == [] && s.gate.cumulativeLoopsStarted == 1
    ensures var t := Run(Completed(s), NEXT_PROMPT, 2);
            && |t.resolved| == 1 && t.aborts == {0}
            && t.prompt.Some? && t.prompt.value.phase.Prompting? && !t.prompt.value.workDone
            && !t.prompt.value.interrupted && t.prompt.value.gen == 1 && t.inflight.Some?
            && t.gate.ended.None? && t.gate.invalid.None?
  {
    CompletionReturns(s);
    NextPromptEnters(Completed(s));
  }

  /** Such a state is reachable: the timer of prompt `a` starts an abort that nobody
      awaits, `a` ends without it, and prompt `b`, which has no wall at all, is
      the one that the abort then labels `timeout`. */
  lemma {:induction false} LeftoverAbortIsReachable()
    ensures var s := Run(START, TIMED + (COMPLETION + (NEXT_PROMPT + LateAbort(0))), 14);
            && |s.resolved| == 2 && s.resolved[1].prompt.gen == 1
            && !s.resolved[1].prompt.interrupted && s.resolved[1].settle.ended == Timeout
  {
    var s3 := Run(START, TIMED, 3);
    TimerLeavesAnAbort();
    NextPromptLeftover(s3);
    var t := Run(Completed(s3), NEXT_PROMPT, 2);
    LeftoverAbortTimesOut(t, 0);
    RunThroughCompletion(START, TIMED, NEXT_PROMPT + LateAbort(0));
    RunAppend(Completed(s3), NEXT_PROMPT, LateAbort(0), 5);
  }

  /** A prompt that begins with its wall still ahead is only ever labelled
      `timeout` for a reason of its own exactly when no earlier abort is still
      quiescing at that moment. */
  lemma {:induction false} TimeoutIsOwnIff(s: Session, e: Event)
    requires SessionInv(s) && Delivery(s) && e.StartPrompt? && s.prompt.None?
    requires Started(s, e).prompt.Some? && Started(s, e).prompt.value.phase.Prompting?
    ensures (forall events: seq<Event>, n: nat :: n <= |events| ==>
               OwnTimeout(Run(Started(s, e), events, n), s.nextGen))
            <==> s.aborts == {}
  {
    var t := Started(s, e);
    StartedPromptIsNew(s, e);
    if s.aborts == {} {
      forall events: seq<Event>, n: nat | n <= |events|
        ensures OwnTimeout(Run(t, events, n), s.nextGen)
      {
        RunKeepsUndisturbed(t, events, n, s.nextGen);
      }
    } else {
      var abort :| abort in s.aborts;
      LeftoverAbortTimesOut(t, abort);
    }
  }

  lemma {:induction false} StartedPromptIsNew(s: Session, e: Event)
    requires SessionInv(s) && Delivery(s) && e.StartPrompt? && s.prompt.None?
    requires Started(s, e).prompt.Some? && Started(s, e).prompt.value.phase.Prompting?
    ensures var t := Started(s, e);
            && SessionInv(t) && t.prompt.value.gen == s.nextGen && t.inflight.Some? && t.aborts == s.aborts
            && !t.prompt.value.workDone && !t.prompt.value.interrupted && t.gate.ended.None? && t.gate.invalid.None?
            && (s.aborts == {} ==> Undisturbed(t, s.nextGen))
  {
    StepKeepsSession(s, e);
    assert Started(s, e).resolved == s.resolved;
  }

  // ---------- What an abort reports ----------

  /** The `continuation_possible` that `abortAndQuiesce` hands back. */
  function AbortReportsContinuation(s: Session, abort: nat, idle: bool): bool
    requires abort in s.aborts
  {
    idle && !(s.inflight.Some? && AbortDone(s, abort, idle).gate.halted)
  }

  /** Whatever the session does, the report tells whether the gate still admits a
      prompt: that holds exactly when a prompt is in flight as the abort ends. */
  lemma {:induction false} AbortReportIsHonestIff(s: Session, abort: nat)
    requires abort in s.aborts
    ensures (forall idle: bool :: AbortReportsContinuation(s, abort, idle) <==> !AbortDone(s, abort, idle).gate.halted)
            <==> s.inflight.Some?
  {
    if s.inflight.None? {
      var idle := s.gate.halted;
      assert AbortReportsContinuation(s, abort, idle) <==> AbortDone(s, abort, idle).gate.halted;
    }
  }

  /** A command to abort, as the first thing or after a lost event frame. */
  function AbortFirst(failed: bool): (events: seq<Event>)
    ensures |events| == 2
  {
    [if failed then FrameFailure(false) else HostChanges([]), AbortCommand]
  }

  /** Both lies occur: an abort before the first prompt that does not become idle rules
      out a continuation, and the prompt sent after it is entered all the same; an abort
      after a lost event frame promises one, and the prompt sent after it is refused. */
  lemma {:induction false} AbortReportLies(failed: bool)
    ensures var s := Run(START, AbortFirst(failed), 2);
            && 0 in s.aborts && AbortReportsContinuation(s, 0, failed) == failed
            && (Started(AbortDone(s, 0, failed), ADMITTED[0]).inflight.Some? <==> !failed)
  {
    var events := AbortFirst(failed);
    assert Run(START, events, 1) == Step(Run(START, events, 0), events[0]);
    assert Run(START, events, 2) == Step(Run(START, events, 1), AbortCommand);
  }
}
