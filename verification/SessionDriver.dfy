/** The session driver as the object it is in the source (omp_session.ts and the
    module state of omp_control.ts): its fields are updated in place, and so is the
    admission controller it shares with every other party.  Each method is one atomic
    piece of the driver and does what the corresponding step of `PromptSession` says. */
module SessionDriver {
  import opened Prelude
  import opened VisibleHistory
  import opened AdmissionGate
  import opened PromptSession

  class Driver {
    const admission: AdmissionController
    var host: seq<HostMessage>
    var nextGen: nat
    var prompt: Option<Prompt>
    var inflight: Option<nat>
    var aborts: set<nat>
    var nextAbort: nat
    var loop: CommandLoop
    var strays: seq<bool>
    var resolved: seq<Resolution>
    var returned: seq<Returned>

    constructor ()
      ensures fresh(admission) && View() == START
    {
      var gate := new AdmissionController();
      admission := gate;
      host, nextGen, prompt, inflight := [], 0, None, None;
      aborts, nextAbort, loop, strays, resolved, returned := {}, 0, Reading, [], [], [];
    }

    function View(): Session
      reads this, admission
    {
      Session(admission.View(), host, nextGen, prompt, inflight, aborts, nextAbort, loop, strays, resolved, returned)
    }

    /** Walks back over the settled messages to the last reply. */
    method ClassifyEnded() returns (ended: Ended)
      ensures ended == Classified(admission.View(), host)
    {
      if admission.invalid.Some? {
        return Error;
      }
      if admission.ended == Some(Cap) {
        return Cap;
      }
      if admission.ended == Some(Timeout) {
        return Timeout;
      }
      var i: nat := |host|;
      while i > admission.messageStartIndex
        invariant i <= |host|
        invariant LastReplyErrored(host, admission.messageStartIndex, |host|) ==
                  LastReplyErrored(host, admission.messageStartIndex, i)
      {
        if host[i - 1].message.AssistantMessage? {
          if host[i - 1].errored {
            return Error;
          }
          break;
        }
        i := i - 1;
      }
      ended := if admission.ended.Some? then admission.ended.value else Natural;
    }

    method BuildSettle(ready: bool, error: bool) returns (settle: Settle)
      ensures settle == Built(admission.View(), host, ready, error)
    {
      var ended := ClassifyEnded();
      settle := Settle(ended, admission.loopsStarted, admission.loopsCompleted, !admission.halted, ready,
                       admission.invalid, error);
    }

    /** Resolves the in-flight promise; a second call finds nothing to resolve. */
    method FinishInFlight(settle: Settle)
      modifies this`resolved, this`inflight
      ensures View() == Finished(old(View()), settle)
    {
      if inflight.None? || prompt.None? {
        return;
      }
      resolved := resolved + [Resolution(prompt.value, settle, |admission.contexts|)];
      inflight := None;
    }

    /** Starts quiescing; the caller does not wait for it. */
    method LaunchAbort()
      modifies this`aborts, this`nextAbort, this`prompt
      ensures View() == Launched(old(View()))
    {
      aborts := aborts + {nextAbort};
      nextAbort := nextAbort + 1;
      if prompt.Some? {
        prompt := Some(prompt.value.(interrupted := true));
      }
    }

    method VisibleMessages() returns (messages: seq<Message>)
      ensures messages == Visible(host, |host|)
    {
      messages := [];
      for i := 0 to |host|
        invariant messages == Visible(host, i)
      {
        messages := messages + [host[i].message];
      }
    }

    /** Shuts the gate and takes the visible messages into its baseline. */
    method SettleGate()
      modifies admission
      ensures admission.View() == Settled(Shut(old(admission.View())), Visible(host, |host|))
    {
      admission.Close();
      var messages := VisibleMessages();
      admission.RecordSettledMessages(messages);
    }

    method TimerFires()
      modifies this`aborts, this`nextAbort, this`prompt, admission
      ensures View() == TimerFired(old(View()))
    {
      if prompt.Some? && prompt.value.phase.Prompting? && prompt.value.armed {
        admission.WriteEnded(Some(Timeout));
        prompt := Some(prompt.value.(armed := false, timedOut := true));
        LaunchAbort();
      }
    }

    /** The prompt call completes; only a first fault of an untimed prompt is an error. */
    method WorkFinishes(accepted: bool)
      modifies this`prompt, admission
      ensures View() == WorkDone(old(View()), accepted)
    {
      if prompt.Some? && prompt.value.phase.Prompting? && !prompt.value.workDone {
        if !accepted && admission.ended.None? && !prompt.value.timedOut {
          admission.WriteEnded(Some(Error));
        }
        prompt := Some(prompt.value.(workDone := true, failed := prompt.value.failed || !accepted));
      }
    }

    /** The end of `abortAndQuiesce`: the session became idle, or it did not.  Returns
        the `continuation_possible` that it reports. */
    method AbortFinishes(abort: nat, idle: bool) returns (continuation: bool)
      modifies this`aborts, this`resolved, this`inflight, admission
      ensures View() == AbortDone(old(View()), abort, idle)
      ensures abort in old(aborts) ==> continuation == AbortReportsContinuation(old(View()), abort, idle)
    {
      continuation := idle;
      if abort !in aborts {
        return;
      }
      aborts := aborts - {abort};
      if inflight.None? {
        return;
      }
      if idle {
        if admission.ended.None? {
          admission.WriteEnded(Some(Timeout));
        }
        SettleGate();
        continuation := !admission.halted;
      } else {
        admission.Halt(Because(Quiescence));
        var settle := BuildSettle(false, false);
        FinishInFlight(settle);
      }
    }

    /** The race of the prompt call against its promise is over. */
    method RaceEnds()
      modifies this`prompt, this`strays, admission
      ensures View() == RaceEnded(old(View()))
    {
      if prompt.None? || !prompt.value.phase.Prompting? || !(prompt.value.workDone || inflight.None?) {
        return;
      }
      if !prompt.value.workDone {
        strays := strays + [prompt.value.timedOut];
      }
      if inflight.Some? {
        prompt := Some(prompt.value.(phase := Idling, armed := false));
      } else {
        prompt := Some(prompt.value.(phase := Returning, armed := false));
        SettleGate();
      }
    }

    method IdleDecided(outcome: IdleOutcome)
      modifies this`prompt, admission
      ensures View() == IdleWasDecided(old(View()), outcome)
    {
      if prompt.Some? && prompt.value.phase.Idling? {
        if !outcome.BecameIdle? {
          admission.Halt(Because(Quiescence));
        }
        SettleGate();
        prompt := Some(prompt.value.(phase := Draining(outcome.BecameIdle?),
                       failed := prompt.value.failed || outcome.IdleFailed?));
      }
    }

    method DrainEnds()
      modifies this`prompt, this`resolved, this`inflight
      ensures View() == DrainEnded(old(View()))
    {
      if prompt.Some? && prompt.value.phase.Draining? {
        var settle := BuildSettle(prompt.value.phase.idle && !admission.halted, prompt.value.failed);
        FinishInFlight(settle);
        prompt := Some(prompt.value.(phase := Returning));
      }
    }

    method CallReturns()
      modifies this`prompt, this`returned
      ensures View() == CallReturned(old(View()))
    {
      if prompt.Some? && prompt.value.phase.Returning? && resolved != [] &&
         resolved[|resolved| - 1].prompt.gen == prompt.value.gen {
        var r := resolved[|resolved| - 1];
        returned := returned + [Returned(prompt.value.gen, prompt.value.turnId, r.settle, true, prompt.value.base,
                                         r.admitted)];
        prompt := None;
      }
    }

    /** Whether the command loop is reading no command. */
    method Waits() returns (waits: bool)
      ensures waits == LoopWaits(View())
    {
      waits := loop.Stopped? || (loop.Awaiting? && loop.abort in aborts);
    }

    /** Hands a settle back without ever entering the agent. */
    method ReturnAtOnce(turnId: string, settle: Settle)
      modifies this`nextGen, this`returned
      ensures View() == ReturnedAtOnce(old(View()), turnId, admission.View(), settle)
    {
      var admitted := |admission.contexts|;
      returned := returned + [Returned(nextGen, turnId, settle, false, admitted, admitted)];
      nextGen := nextGen + 1;
    }

    /** A halted or invalidated session answers with what its gate holds. */
    method Refuse(turnId: string)
      modifies this`nextGen, this`returned, admission
      ensures View() ==
              var gate := Shut(old(admission.View()));
              ReturnedAtOnce(old(View()), turnId, gate, Built(gate, host, false, false))
    {
      admission.Close();
      var settle := BuildSettle(false, false);
      ReturnAtOnce(turnId, settle);
    }

    /** A session closed before its first loop answers with an error, and forgets it. */
    method RefuseClosed(turnId: string)
      modifies this`nextGen, this`returned, admission
      ensures View() ==
              var gate := old(admission.View());
              var settle := Built(gate.(ended := Some(Error)), host, true, false);
              ReturnedAtOnce(old(View()), turnId, gate.(ended := None), settle.(continuationPossible := true))
    {
      admission.WriteEnded(Some(Error));
      var settle := BuildSettle(true, false);
      admission.WriteEnded(None);
      ReturnAtOnce(turnId, settle.(continuationPossible := true));
    }

    /** Enters the agent, unless the prompt's wall has passed already. */
    method Enter(e: Event)
      requires e.StartPrompt?
      modifies this`nextGen, this`prompt, this`inflight, this`aborts, this`nextAbort, admission
      ensures View() == Entered(old(View()), e)
    {
      var wall := WallMs(e);
      prompt := Some(Prompt(nextGen, e.turnId, Prompting, false, wall.Some?, false, false,
                            |admission.contexts|, false));
      inflight := Some(nextGen);
      nextGen := nextGen + 1;
      if wall.Some? && wall.value <= 0 {
        admission.WriteEnded(Some(Timeout));
        prompt := Some(prompt.value.(phase := Starting(nextAbort), timedOut := true, armed := false));
        LaunchAbort();
      }
    }

    /** The beginning of `runControlledPrompt`, up to where it first waits. */
    method StartPrompt(e: Event)
      requires e.StartPrompt?
      modifies this, admission
      ensures View() == Started(old(View()), e)
    {
      var waits := Waits();
      if waits || prompt.Some? || e.busy || inflight.Some? {
        return;
      }
      if admission.halted || (admission.invalid.Some? && admission.invalid.value != Quiescence) {
        Refuse(e.turnId);
        return;
      }
      if admission.explicitlyClosed && admission.cumulativeLoopsStarted == 0 {
        RefuseClosed(e.turnId);
        return;
      }
      admission.BeginPrompt(e.turnId, e.maxTurns, e.timeoutSeconds, |host|, e.now);
      // A usable gate has just been opened: the source's next test, for a closed one, never fires.
      assert !admission.closed;
      Enter(e);
    }

    /** A command that quiesces the session; the command loop waits for it. */
    method Abort()
      modifies this`aborts, this`nextAbort, this`loop, this`prompt
      ensures View() == PromptSession.Step(old(View()), AbortCommand)
    {
      var waits := Waits();
      if !waits {
        loop := Awaiting(nextAbort);
        LaunchAbort();
      }
    }

    /** A command to shut down halts the gate before it quiesces the session. */
    method Shutdown()
      modifies this`aborts, this`nextAbort, this`loop, this`prompt, admission
      ensures View() == PromptSession.Step(old(View()), ShutdownCommand)
    {
      var waits := Waits();
      if !waits {
        loop := Stopped;
        admission.Halt(Ending(Error));
        LaunchAbort();
      }
    }

    /** An event frame that cannot be written invalidates the session. */
    method FrameFails(aborting: bool)
      modifies this`aborts, this`nextAbort, this`prompt, admission
      ensures View() == PromptSession.Step(old(View()), FrameFailure(aborting))
    {
      admission.Halt(Because(EventFrame));
      if aborting {
        LaunchAbort();
      }
    }

    /** The agent loop is about to call the model; a prompt that its own deadline or the
        abort signal stops here is interrupted. */
    method AgentCalls(messages: seq<Message>, aborted: bool, at: int)
      modifies this`prompt, admission
      ensures View() == AgentCalled(old(View()), Event.AgentCalls(messages, aborted, at))
    {
      if !admission.halted && !admission.closed && prompt.Some? &&
         (aborted || (admission.deadline.Some? && at >= admission.deadline.value)) {
        prompt := Some(prompt.value.(interrupted := true));
      }
      var refusal := admission.BeforeModelCall(messages, aborted, at);
    }

    /** A reply without a fault ends; the subscription lasts as long as the prompt call. */
    method TurnEnds()
      modifies admission
      ensures View() == PromptSession.Step(old(View()), Event.TurnEnds)
    {
      if prompt.Some? && prompt.value.phase.Prompting? {
        admission.MarkLoopCompleted();
      }
    }

    method HostChanges(messages: seq<HostMessage>)
      modifies this`host
      ensures View() == PromptSession.Step(old(View()), Event.HostChanges(messages))
    {
      host := messages;
    }

    /** A prompt call that outlived its prompt completes and may still label the gate. */
    method StrayFinishes(stray: nat, accepted: bool)
      modifies this`strays, admission
      ensures View() == StrayDone(old(View()), stray, accepted)
    {
      if stray < |strays| {
        if !accepted && admission.ended.None? && !strays[stray] {
          admission.WriteEnded(Some(Error));
        }
        strays := strays[..stray] + strays[stray + 1..];
      }
    }

    method WallAbortReturns()
      modifies this`prompt
      ensures View() == WallAbortReturned(old(View()))
    {
      if prompt.Some? && prompt.value.phase.Starting? && prompt.value.phase.abort !in aborts {
        prompt := Some(prompt.value.(phase := Prompting));
      }
    }

    /** Whatever happens to the object is one step of the session. */
    method Perform(e: Event)
      modifies this, admission
      ensures View() == PromptSession.Step(old(View()), e)
    {
      match e
      case StartPrompt(_, _, _, _, _, _) => StartPrompt(e);
      case AbortCommand => Abort();
      case ShutdownCommand => Shutdown();
      case FrameFailure(aborting) => FrameFails(aborting);
      case AgentCalls(messages, aborted, at) => AgentCalls(messages, aborted, at);
      case TurnEnds => TurnEnds();
      case HostChanges(messages) => HostChanges(messages);
      case TimerFires => TimerFires();
      case WorkFinishes(accepted) => WorkFinishes(accepted);
      case StrayFinishes(stray, accepted) => StrayFinishes(stray, accepted);
      case AbortFinishes(abort, idle) => var continuation := AbortFinishes(abort, idle);
      case WallAbortReturns => WallAbortReturns();
      case RaceEnds => RaceEnds();
      case IdleDecided(outcome) => IdleDecided(outcome);
      case DrainEnds => DrainEnds();
      case CallReturns => CallReturns();
    }

    /** So every theorem about runs of the session is one about this object. */
    method PerformAll(events: seq<Event>)
      modifies this, admission
      ensures View() == PromptSession.Run(old(View()), events, |events|)
    {
      for i := 0 to |events|
        invariant View() == PromptSession.Run(old(View()), events, i)
      {
        Perform(events[i]);
      }
    }
  }
}
