# Verified model of the controlled execution stack

This project models, in Dafny 4.11, how the repository runs an agent under control and
keeps trustworthy evidence of it, and proves what that evidence means.

Two parties and a shared contract form its core:

- The **session driver** (TypeScript) owns an agent session. Its *admission gate*
  (`AdmissionGate`, over `VisibleHistory`) lets a model call through only within the turn
  budget and the deadline, and only if the visible history of the conversation was not
  rewritten. Prompts, timers, aborts and shutdown interleave; `PromptSession` is the step
  relation of all atomic pieces between two waits, and `SessionDriver` the object whose
  methods perform those pieces in place.
- The **controller** (Python) delivers a script of messages, reads the declared captures
  and closes down: shutdown, transport close, process cleanup, summary, hand-off
  (`ControlledRun`, with `Accounting`, `Captures` and `Quiesce`).
- The **contract** (`ExecutionContract`, with `Patterns` and `Text`) validates the plan that goes in and the summary
  that comes out. `EndToEnd` joins the three: for every valid plan, every interleaving
  inside the driver and every exit path of the controller, the summary passes the contract
  exactly when no attempted capture read failed with an empty text; and after a clean
  delivery each record counts exactly the contexts admitted under its turn's id.

Around it stand the seeded selection of instances (`Framing`, `Sorting`, `Selection`), the
evidence fold over a Pi event stream (`SkillStages`), episodic trials (`EpisodeRelay`), run
indexes (`IndexReferences` and `HistoricalReferences` over `PurePaths`, `RunIndex`) and
scorecards (`Scorecards`, `LegacyScorecards`).

Conventions. Answers of the outside world (drivers, containers, clocks, processes, file
writes) are parameters, so every statement is about all of them. Code that updates state in
place is a class or a loop proved against a function; statements about runs are about that
function. Reals stand for floats and a hash is any function. Lemmas carry
`{:induction false}` throughout, so that every induction is written out.

Where the code and its own documentation or intent part ways, the model follows the code:

- `usageFromSlice` documents a total that is unknown rather than partial, but sums a key as
  soon as any reply reported it (`Accounting.SliceTotalIsCompleteIff`).
- A capture that fails with an exception without a text (`str(error)` is empty) makes an
  otherwise sound summary fail the contract (`ControlledRun.SummaryIsValidIff`).
- A prompt that is refused at once is answered with the loop counters of the prompt before
  it (`PromptSession.RefusedSettleCountsOwnIff`).
- An abort of an earlier prompt that is still quiescing can label the next prompt `timeout`
  (`PromptSession.TimeoutIsOwnIff`).
- What an abort reports about a continuation need not agree with the gate when no prompt is
  in flight (`PromptSession.AbortReportIsHonestIff`).
- A settle extends the audit baseline only by replies whose text it does not hold yet, and
  replaces its model (`AdmissionGate.BaselineGainsEveryReplyIff`,
  `AdmissionGate.ModelSwitchUndetectedIff`).
- The fatal-settle test knows only the word `error`, while an unknown ending is recorded as
  `error` (`ControlledRun.CleanEndIsErrorIff`); the driver of this repository never sends
  one (`EndToEnd.DrivenEndIsKnown`).
- A hand-off whose publication failed after its summary was copied stays in place when the
  second closing withholds publication, and can then claim a valid run against the summary
  on disk (`ControlledRun.RunControlledOmp`, `ControlledRun.HandoffContradictsEvidence`).
- A kill script signals a whole process group: it can strike a process that must be left
  alone and miss its own target (`Quiesce.SparedIsStruckIff`, `Quiesce.TargetIsStruckIff`).
- A relay whose stream names a negative cost is written and then refused
  (`EpisodeRelay.RelayIsAcceptedIff`).
- Totals over episodes differ from totals over messages when an episode delivered none
  (`Accounting.NestedTotalIsFlatIff`).
- A historical reference with a backslash is read as a Windows path wherever it was
  written: a POSIX file with a backslash in its name is then looked for elsewhere, and an
  absolute reference outside its Logbook is accepted
  (`HistoricalReferences.PosixReferenceRelocatesIff`,
  `HistoricalReferences.OutsideReferenceIsAccepted`).
- A run index remembers a child whose write failed, and accepts children after it has ended
  (`RunIndex.SyncedIff`, `RunIndex.TerminalChangesIff`).

## Model

| member | source | states |
|---|---|---|
| VisibleHistory.VisiblePrefixFromMessages | containers/harbor-launcher/yacht_harbor_agents/omp_admission.ts:80-99 | The projection loop yields exactly the visible user and assistant texts in order, of which an empty plain text is none and an empty text block is one, and the last model that an assistant message names. |
| VisibleHistory.HistoriesAdd | containers/harbor-launcher/yacht_harbor_agents/omp_admission.ts:84-92 | A history shows what its parts show, one after the other. |
| VisibleHistory.MessageShows | containers/harbor-launcher/yacht_harbor_agents/omp_admission.ts:62-92 | One message: a text block and a plain text are one turn each; an empty plain text, another block, no content and an opaque entry are none. |
| VisibleHistory.BlocksAdd | containers/harbor-launcher/yacht_harbor_agents/omp_admission.ts:62-70 | A message with many blocks shows what its parts show, in order. |
| VisibleHistory.ModelIff | containers/harbor-launcher/yacht_harbor_agents/omp_admission.ts:90-91 | The model is the last non-empty one that an assistant message names. |
| VisibleHistory.GreedyIsExact | containers/harbor-launcher/yacht_harbor_agents/omp_admission.ts:101-121 | Greedy matching succeeds if and only if some order-preserving embedding of the previous turns into the current ones exists. |
| VisibleHistory.RetainsTransitive | containers/harbor-launcher/yacht_harbor_agents/omp_admission.ts:101-121 | Retention is transitive, so that a chain of audits composes. |
| VisibleHistory.RetainsOrderedTurns | containers/harbor-launcher/yacht_harbor_agents/omp_admission.ts:107-121 | The nested cursor loop returns true exactly when every previous turn is retained in order. |
| VisibleHistory.KeysOf | containers/harbor-launcher/yacht_harbor_agents/omp_admission.ts:136-138 | The `role:text` keys stand for the turns themselves: distinct turns never share a key. |
| VisibleHistory.AuditVisibleHistory | containers/harbor-launcher/yacht_harbor_agents/omp_admission.ts:123-140 | The audit accepts exactly retained histories of a compatible model; otherwise the reason is a model switch, or `compaction` or `truncation` by whether a current turn is novel. |
| VisibleHistory.TruncationMeansPureLoss | containers/harbor-launcher/yacht_harbor_agents/omp_admission.ts:133-139 | `truncation` is reported exactly for a loss in which no current turn is novel. |
| AdmissionGate.StepKeepsInvariant | containers/harbor-launcher/yacht_harbor_agents/omp_admission.ts:142-279 | Every write to the gate keeps the counters within the budget, `invalid` implies `halted` implies `closed`, the numbering of contexts and the chain of histories. |
| AdmissionGate.ReachableInvariant | containers/harbor-launcher/yacht_harbor_agents/omp_admission.ts:163-278 | In every reachable state, whoever wrote the gate in whatever order, `loopsCompleted <= loopsStarted <= maxTurns`, the cumulative count is the number of admitted contexts, and each prompt numbers its contexts 1..k. |
| AdmissionGate.AdmittedHistoryIsMonotone | containers/harbor-launcher/yacht_harbor_agents/omp_admission.ts:237-278 | Over any run, the visible turns of an admitted context are an ordered subsequence of those of every context admitted later. |
| AdmissionGate.HaltIsFinal | containers/harbor-launcher/yacht_harbor_agents/omp_admission.ts:188-201 | Once halted the gate stays halted and invalid, and admits nothing more. |
| AdmissionGate.ClosedAdmitsNothing | containers/harbor-launcher/yacht_harbor_agents/omp_admission.ts:183-186 | A closed gate admits nothing until the next prompt begins. |
| AdmissionGate.CallAdmitsExactlyWhen | containers/harbor-launcher/yacht_harbor_agents/omp_admission.ts:237-278 | A call adds a context exactly when no test refuses it; every refusal leaves the gate shut with an ending. |
| AdmissionGate.QuiescenceExemptionIsDead | containers/harbor-launcher/yacht_harbor_agents/omp_admission.ts:164 | The exemption for `quiescence` in the usability test never matters: in every reachable state the test is `halted`. |
| AdmissionGate.SettledRepliesSurvive | containers/harbor-launcher/yacht_harbor_agents/omp_admission.ts:203-231 | No context admitted after a settle drops the text of a reply that settled. |
| AdmissionGate.BaselineGainsEveryReplyIff | containers/harbor-launcher/yacht_harbor_agents/omp_admission.ts:216-224 | The settle extends the baseline by every recent reply exactly when none repeats a turn that was admitted. |
| AdmissionGate.RepeatedReplyCanBeDropped | containers/harbor-launcher/yacht_harbor_agents/omp_admission.ts:222 | A run of the gate from its initial state in which the session says the same text twice, both settle, and a context that shows it once is admitted. |
| AdmissionGate.ModelSwitchUndetectedIff | containers/harbor-launcher/yacht_harbor_agents/omp_admission.ts:225-227 | Across a settle a model switch goes unnoticed exactly when the settled state already names the other model. |
| AdmissionGate.AdmissionController.BeginPrompt | containers/harbor-launcher/yacht_harbor_agents/omp_admission.ts:163-181 | The object does what the step relation says, which `BeginningTells` and `DeadlineFallsAfterSeconds` pin down: counters, ending and deadline restart, or an unusable gate halts. |
| AdmissionGate.BeginningTells | containers/harbor-launcher/yacht_harbor_agents/omp_admission.ts:163-181 | A halted or invalid gate stays shut with an error; a usable one admits the first call as loop 1 of the new prompt exactly when the prompt may call, is in time and retains the history. |
| AdmissionGate.DeadlineFallsAfterSeconds | containers/harbor-launcher/yacht_harbor_agents/omp_admission.ts:178-180 | Over any writes after a usable gate began a prompt with t seconds: a call that finds it open, the history retained and the budget unspent is admitted exactly when it comes less than 1000 t milliseconds after the beginning, is refused as a timeout from then on, and without seconds never for time. |
| AdmissionGate.AdmissionController.Halt | containers/harbor-launcher/yacht_harbor_agents/omp_admission.ts:188-201 | Halting shuts the gate for good, with an ending or an invalidation by its reason. |
| AdmissionGate.HaltTells | containers/harbor-launcher/yacht_harbor_agents/omp_admission.ts:183-201 | What halting, closing and a completed loop leave behind. |
| AdmissionGate.AdmissionController.RecordSettledMessages | containers/harbor-launcher/yacht_harbor_agents/omp_admission.ts:210-231 | The loop extends the baseline by exactly the assistant turns it does not hold, and takes over the settled model. |
| AdmissionGate.AdmissionController.BeforeModelCall | containers/harbor-launcher/yacht_harbor_agents/omp_admission.ts:237-278 | The call is let through exactly when the gate is open, not aborted, in time, its history retained and its budget unspent; otherwise the reason handed back names the first test that failed; every field changes as the step relation says. |
| AdmissionGate.RefusalTells | containers/harbor-launcher/yacht_harbor_agents/omp_admission.ts:237-270 | Of the refusals of an open gate only a lost history halts and invalidates; an abort and a passed deadline end in a timeout, where only the latter overwrites an ending, and a spent budget ends in a cap. |
| PromptSession.ExactlyOneSettle | containers/harbor-launcher/yacht_harbor_agents/omp_session.ts:243-393 | Over every interleaving no promise is resolved twice, a call suspended on its promise finds it resolved exactly once and returns, and every caller gets the one settle of its own promise. |
| PromptSession.OverlapTestIsRedundant | containers/harbor-launcher/yacht_harbor_agents/omp_session.ts:256-258 | With prompts serialised by the command loop, the in-flight half of the overlap test never fires. |
| PromptSession.SettlesCountTheirOwnLoops | containers/harbor-launcher/yacht_harbor_agents/omp_session.ts:223-227 | In every run, each settle that came out of a promise counts exactly the contexts admitted between the beginning of its own call and its settle, all with its turn id and numbered from 1; and the calls divide the admitted contexts among them without a gap. |
| PromptSession.RefusedSettleCountsOwnIff | containers/harbor-launcher/yacht_harbor_agents/omp_session.ts:260-267 | The settle of a call that is refused at once counts its own loops, of which there are none, exactly when the gate still counts zero loops: otherwise it reports those of the prompt before it. |
| PromptSession.RefusedSettleMiscounts | containers/harbor-launcher/yacht_harbor_agents/omp_session.ts:260-267 | A run of nine events after which the refused prompt `b` is answered with one loop, while the only admitted context is that of prompt `a`. |
| PromptSession.SettlesCountTheirTurn | containers/harbor-launcher/yacht_harbor_agents/omp_session.ts:223-227 | When no turn id is used twice, a promised settle reports as many loops as the whole session has contexts under its turn id, and there is none under the turn id of a call that was answered at once. |
| PromptSession.RefusalsAlwaysStop | containers/harbor-launcher/yacht_harbor_agents/omp_session.ts:260-280 | In every run, a settle that is handed back at once is an error or not ready. |
| PromptSession.EndingTells | containers/harbor-launcher/yacht_harbor_agents/omp_session.ts:184-199 | The ending of a settle: an invalid gate is an error, a cap and a timeout are themselves; otherwise an error of the last assistant message since the prompt began wins over the recorded ending, and without either it is natural. |
| PromptSession.NaturalSettleIff | containers/harbor-launcher/yacht_harbor_agents/omp_session.ts:184-199 | A promise is resolved as a natural end exactly when the gate holds neither an invalidation nor another ending and the last reply since the prompt began did not err. |
| PromptSession.SettleTells | containers/harbor-launcher/yacht_harbor_agents/omp_session.ts:201-241 | A settle is ready only after a drain that followed an idle session and left the gate unhalted, carries an error only if the prompt failed, and offers a continuation exactly when the gate is not halted. |
| PromptSession.StartTells | containers/harbor-launcher/yacht_harbor_agents/omp_session.ts:251-300 | Which prompts are rejected, which are answered at once and with what, and which are entered, in terms of the fields the code tests. |
| PromptSession.EntryTells | containers/harbor-launcher/yacht_harbor_agents/omp_session.ts:300-335 | A prompt whose own or overall wall has passed is labelled a timeout and aborted as it begins; otherwise its timer is armed exactly when it has a wall. |
| PromptSession.EndedTells | containers/harbor-launcher/yacht_harbor_agents/omp_session.ts:251-439 | Which of the other pieces record which ending, and when they leave it. |
| PromptSession.HaltedTells | containers/harbor-launcher/yacht_harbor_agents/omp_session.ts:360-439 | Which pieces halt the gate, and with which invalidation. |
| PromptSession.ShutTells | containers/harbor-launcher/yacht_harbor_agents/omp_session.ts:360-439 | Which pieces shut the gate, when the settled replies enter its baseline, and when a loop counts as completed. |
| PromptSession.AbortsTell | containers/harbor-launcher/yacht_harbor_agents/omp_session.ts:395-439 | Which pieces launch an abort, when it is over, and when commands are read again. |
| PromptSession.PhasesTell | containers/harbor-launcher/yacht_harbor_agents/omp_session.ts:330-393 | How the running call moves from piece to piece and returns with the settle of its own promise. |
| PromptSession.NotesTell | containers/harbor-launcher/yacht_harbor_agents/omp_session.ts:330-393 | When the running call counts as failed, done, timed out or armed. |
| PromptSession.InterruptedTells | containers/harbor-launcher/yacht_harbor_agents/omp_session.ts:313-328 | What counts as an interruption of the running call: an abort launched while it runs, or a model call of its own that the abort signal or its deadline stops. |
| PromptSession.AbortsAreDistinct | containers/harbor-launcher/yacht_harbor_agents/omp_session.ts:395-439 | In every run each quiescing abort has an id of its own. |
| PromptSession.StraysTell | containers/harbor-launcher/yacht_harbor_agents/omp_session.ts:330-366 | A prompt call is left behind exactly when its promise is resolved before it completes. |
| PromptSession.NothingAdmittedAfterTheSettle | containers/harbor-launcher/yacht_harbor_agents/omp_session.ts:353-392 | Nothing is admitted for a prompt between its settle and its return. |
| PromptSession.InvalidSessionsOnlyFail | containers/harbor-launcher/yacht_harbor_agents/omp_session.ts:184-241 | Once the gate is invalid, every later settle is an error that rules out continuation. |
| PromptSession.SettlesStayWithinBudget | containers/harbor-launcher/yacht_harbor_agents/omp_session.ts:251-393 | When no prompt asks for more than a turn budget, no settle reports more loops, nor more completed than started. |
| PromptSession.TimeoutIsOwnIff | containers/harbor-launcher/yacht_harbor_agents/omp_session.ts:395-439 | A prompt that begins with its wall ahead is labelled `timeout` only for a reason of its own, in all continuations, exactly when no earlier abort is still quiescing as it begins. |
| PromptSession.LeftoverAbortTimesOut | containers/harbor-launcher/yacht_harbor_agents/omp_session.ts:410-433 | Five steps by which an abort left over from before the prompt labels it `timeout`, from any state with such an abort. |
| PromptSession.LeftoverAbortIsReachable | containers/harbor-launcher/yacht_harbor_agents/omp_session.ts:322-328 | A run of fourteen events from the start that ends so: the timer of prompt `a` starts an abort that nobody awaits, and prompt `b`, which has no wall, is labelled `timeout` by it. |
| PromptSession.AbortReportIsHonestIff | containers/harbor-launcher/yacht_harbor_agents/omp_session.ts:410-438 | Whether or not the session becomes idle, the reported `continuation_possible` agrees with the gate: that holds exactly when a prompt is in flight as the abort ends. |
| PromptSession.AbortReportLies | containers/harbor-launcher/yacht_harbor_agents/omp_session.ts:410-438 | Runs from the start for both lies: a continuation ruled out although the next prompt is entered, and one promised although it is refused. |
| SessionDriver.Driver.ClassifyEnded | containers/harbor-launcher/yacht_harbor_agents/omp_session.ts:184-199 | The backward walk over the replies yields the ending that `PromptSession.EndingTells` characterises by the last reply. |
| SessionDriver.Driver.FinishInFlight | containers/harbor-launcher/yacht_harbor_agents/omp_session.ts:243-249 | Resolves the in-flight promise and forgets it; a second call changes nothing. |
| SessionDriver.Driver.StartPrompt | containers/harbor-launcher/yacht_harbor_agents/omp_session.ts:251-328 | The object performs the first atomic piece of the prompt as the step relation says, refusals included. |
| SessionDriver.Driver.IdleDecided | containers/harbor-launcher/yacht_harbor_agents/omp_session.ts:367-375 | After the idle race the gate is halted unless the session became idle, then shut, and the settled replies enter the baseline. |
| SessionDriver.Driver.DrainEnds | containers/harbor-launcher/yacht_harbor_agents/omp_session.ts:375-386 | The settle is built after the drain and resolves the promise once. |
| SessionDriver.Driver.AbortFinishes | containers/harbor-launcher/yacht_harbor_agents/omp_session.ts:395-439 | The end of an abort shuts and labels the gate of the prompt in flight, or halts it and settles the prompt; what it returns is the report that `AbortReportIsHonestIff` speaks about. |
| SessionDriver.Driver.Shutdown | containers/harbor-launcher/yacht_harbor_agents/omp_control.ts:363-370 | Shutdown halts the gate before the session is quiesced, and no command is read after it. |
| SessionDriver.Driver.PerformAll | containers/harbor-launcher/yacht_harbor_agents/omp_session.ts:251-439 | Whatever is done to the object in whatever order, it is then as the step relation says after that run; so every theorem about runs is about the object. |
| ExecutionContract.ReaderTestIsContractWithoutNul | src/yacht/_execution_contract.py:481-491 | A path that the contract accepts is never refused as unsafe by the capture reader; the two tests differ only on NUL. |
| ExecutionContract.AcceptedPathDescends | containers/harbor-launcher/yacht_harbor_agents/captures.py:160-163 | An accepted path is the join of components none of which is empty, `.` or `..`. |
| ExecutionContract.AcceptedPathIff | src/yacht/_execution_contract.py:479-491 | The accepted paths are exactly the joins of components that are neither empty nor `.` nor `..` and hold no slash, backslash or NUL. |
| ExecutionContract.TurnIdIff | src/yacht/_execution_contract.py:20-28 | The turn ids are exactly the matches of the published regular expression. |
| ExecutionContract.CaptureIdIff | src/yacht/_execution_contract.py:23-29 | The test that cuts at every dash accepts exactly the matches of the published regular expression of capture ids. |
| ExecutionContract.Sha256Iff | src/yacht/_execution_contract.py:26-30 | The digests are exactly the matches of their regular expression. |
| Text.CanonicalIff | src/yacht/_execution_contract.py:25 | The canonical indices are exactly the renderings of natural numbers. |
| Text.NonBlankIff | src/yacht/_execution_contract.py:284-288 | A text is not blank exactly when stripping it leaves something. |
| Text.SpacesAre | src/yacht/_execution_contract.py:284-288 | The characters that stripping removes, one by one. |
| ExecutionContract.CaptureNameIsCaptureId | src/yacht/_execution_contract.py:23-25 | Every id derived from a turn id passes the public capture-id grammar. |
| ExecutionContract.CaptureNameInjective | src/yacht/courses/execution.py:129-131 | Derived capture ids never collide, although turn ids may end in a dash and digits. |
| ExecutionContract.ArtifactNameInjective | containers/harbor-launcher/yacht_harbor_agents/captures.py:321-328 | Artifact files never overwrite each other, whatever was captured. |
| ExecutionContract.ValidateExecutionPlan | src/yacht/_execution_contract.py:92-112 | Accepts exactly the plans with positive limits and, when retained, distinct valid turns and valid, distinct captures within the byte total. |
| ExecutionContract.PlanIsValidIff | src/yacht/_execution_contract.py:92-112 | What a valid plan is in terms of its fields: positive limits; valid ids, no two the same; instructions with text; captures after a known turn with a descending path, 1 to 16 MiB and their derived id, no pair twice, 64 MiB in all. |
| ExecutionContract.ValidateTurns | src/yacht/_execution_contract.py:264-292 | The loop over `seen` accepts exactly distinct well-formed turns with text. |
| ExecutionContract.ValidateCaptures | src/yacht/_execution_contract.py:293-332 | The loop over `pairs` and `total` accepts exactly valid, distinct captures within the byte total. |
| ExecutionContract.NormalizeThenValidate | src/yacht/courses/execution.py:69-137 | A declaration is refused only for what it declares, never for an id derived from it. |
| ExecutionContract.DerivedIdsPass | src/yacht/courses/execution.py:117-137 | Derived ids satisfy the grammar and are pairwise distinct. |
| ExecutionContract.ValidateExecutionSummary | src/yacht/_execution_contract.py:192-261 | Accepts exactly the summaries whose every field is as the contract demands, spelled out in the `ensures`: among others the loops of each message within `max_turns`, and each capture after a delivered message. |
| ExecutionContract.OverBudgetIsRefused | src/yacht/_execution_contract.py:395-399 | Evidence of loops beyond the budget, or more completed than started, is refused whatever else it says. |
| ExecutionContract.SettingIff | src/yacht/_execution_contract.py:345-364 | The recursive descent accepts exactly the settings in which nothing is wrong at any depth. |
| Captures.ReadWithinLimit | containers/harbor-launcher/yacht_harbor_agents/captures.py:206-217 | However the reads fall, a file within the limit is captured whole, a longer one refused, and at most one byte past the limit is read. |
| Accounting.TotalUsage | containers/harbor-launcher/yacht_harbor_agents/controlled_omp.py:312-333 | The one-pass loop reports exactly the keys that every message reported, each with its exact sum. |
| Accounting.TotalCost | containers/harbor-launcher/yacht_harbor_agents/controlled_omp.py:317-335 | The cost is the exact sum when there is a message and every message has a price, and unknown otherwise. |
| Accounting.TotalOfOne | containers/harbor-launcher/yacht_harbor_agents/controlled_omp.py:312-335 | The total of one report is that report, and a cost likewise. |
| Accounting.TotalsAdd | containers/harbor-launcher/yacht_harbor_agents/controlled_omp.py:312-333 | The total over two lists of reports has exactly the keys that both totals have, added. |
| Accounting.CostsAdd | containers/harbor-launcher/yacht_harbor_agents/controlled_omp.py:317-335 | The cost over two lists is the sum of the two costs if both are known, and unknown otherwise. |
| Accounting.NestedTotalIsFlatIff | containers/harbor-launcher/yacht_harbor_agents/controlled_omp.py:856-886 | The total over per-episode totals is the total over all messages exactly when every episode delivered a message, or no key was reported by all. |
| Accounting.EmptyEpisodeHidesTheTotal | containers/harbor-launcher/yacht_harbor_agents/controlled_omp.py:856-886 | Two episodes, the second without a message, whose messages have a total and whose episodes have none. |
| Accounting.RelayTotals | containers/harbor-launcher/yacht_harbor_agents/controlled_omp.py:856-886 | The relay's totals over the episodes' own totals are those of all messages under exactly these conditions, and unknown when an episode delivered nothing. |
| Accounting.NestedCostIsFlatIff | containers/harbor-launcher/yacht_harbor_agents/controlled_omp.py:860-885 | The same for cost. |
| Accounting.UsageFromSlice | containers/harbor-launcher/yacht_harbor_agents/omp_session.ts:134-169 | A settle has a usage exactly when it has a reply and no reply failed or lacks a usage; it then sums each native key that any reply reported. |
| Accounting.NativeKeysAre | containers/harbor-launcher/yacht_harbor_agents/omp_session.ts:139-169 | The driver totals five named native counts. |
| Accounting.SliceTotalIsCompleteIff | containers/harbor-launcher/yacht_harbor_agents/omp_session.ts:134-138 | That sum is a complete total, as its documentation promises, exactly when no reply is silent about a native key that another reported. |
| Accounting.PartialUsageIsReported | containers/harbor-launcher/yacht_harbor_agents/omp_session.ts:155-167 | Two replies for which a partial sum is reported as complete. |
| Accounting.NormalizeUsage | containers/harbor-launcher/yacht_harbor_agents/controlled_omp.py:185-201 | Of a raw usage the non-negative integral counts are kept, a key's own name winning over its native one; none at all is unknown. |
| Accounting.CountIsKeptIff | containers/harbor-launcher/yacht_harbor_agents/controlled_omp.py:185-201 | Each of the five published counts is kept exactly when the raw usage holds a whole, non-negative number under its own name or its native one. |
| Accounting.MergeStreamUsages | containers/harbor-launcher/yacht_harbor_agents/episodes.py:300-318 | The host-side merge reports, of its four named keys, exactly those that every episode reported as non-negative, with the complete total. |
| Accounting.MergedIff | containers/harbor-launcher/yacht_harbor_agents/episodes.py:300-318 | The merge believes four named keys, and each only if every episode reported it as a number that is not negative. |
| ControlledRun.ScheduleIsExact | containers/harbor-launcher/yacht_harbor_agents/controlled_omp.py:175-182 | The captures due are exactly those declared after a delivered turn, each once, in delivery and then declaration order. |
| ControlledRun.ScriptTells | containers/harbor-launcher/yacht_harbor_agents/controlled_omp.py:633-650 | The instruction of the task goes first under the id of the initial turn, then the turns of a retained plan in order. |
| ControlledRun.ReadCaptures | containers/harbor-launcher/yacht_harbor_agents/controlled_omp.py:707-725 | Due captures are recorded in order up to the first one that fails or raises, the failed one included. |
| ControlledRun.CaptureTells | containers/harbor-launcher/yacht_harbor_agents/captures.py:294-329 | What a capture record tells of its read: id, status, and size, digest and artifact name of what was read, or the text of the error. |
| ControlledRun.StopIsUnique | containers/harbor-launcher/yacht_harbor_agents/controlled_omp.py:634-736 | What the outside answers determines how far delivery gets. |
| ControlledRun.CleanEndIsErrorIff | containers/harbor-launcher/yacht_harbor_agents/controlled_omp.py:239-252 | A run without a fault ends as `error` exactly when the script was delivered and the last ending is a text the controller does not know; the session driver never sends one (`EndToEnd.DrivenEndIsKnown`). |
| ControlledRun.Controller.Initialize | containers/harbor-launcher/yacht_harbor_agents/controlled_omp.py:588-632 | Prompting begins exactly after a clean start; the session id and the policy are kept as the driver reported them, even when the start fails afterwards. |
| ControlledRun.Controller.JudgeTurn | containers/harbor-launcher/yacht_harbor_agents/controlled_omp.py:694-734 | A recorded turn lets the run go on exactly when its settle is not fatal, its captures are clean and it did not end in a cap or timeout without a continuation, all in terms of the reply and the reads; the first fault names the error. |
| ControlledRun.TurnIsCleanIff | containers/harbor-launcher/yacht_harbor_agents/controlled_omp.py:239-259 | A turn is clean exactly when its settle succeeded, is ready and neither invalid nor an error, every capture due was read or found missing, and, with a turn to come, it did not end in a cap or a timeout without a continuation. |
| ControlledRun.TurnRaisesIff | containers/harbor-launcher/yacht_harbor_agents/controlled_omp.py:707-725 | A turn ends in an exception or a cancellation exactly when its settle is not fatal and the first of its captures that is neither read nor found missing does. |
| ControlledRun.ContinuableTurnGoesOn | containers/harbor-launcher/yacht_harbor_agents/controlled_omp.py:255-259 | A run in time whose first turn ends in a cap or timeout that can be continued sends the second turn. |
| ControlledRun.FaultTells | containers/harbor-launcher/yacht_harbor_agents/controlled_omp.py:694-734 | What a turn that is not clean is blamed on, and with which text. |
| ControlledRun.BlameTells | containers/harbor-launcher/yacht_harbor_agents/controlled_omp.py:588-736 | The first thing that went wrong is what a run that closed normally is blamed on. |
| ControlledRun.ClosingTells | containers/harbor-launcher/yacht_harbor_agents/controlled_omp.py:284-411 | What the answers at closing mean for writing, publishing, returning and the error. |
| ControlledRun.CleanEndTells | containers/harbor-launcher/yacht_harbor_agents/controlled_omp.py:633-736 | A delivery without a fault ends as a timeout if the deadline stopped it, and otherwise as its last settle did. |
| ControlledRun.SessionIff | containers/harbor-launcher/yacht_harbor_agents/controlled_omp.py:605-693 | The session ids are exactly the non-empty ones that the driver reported, each once. |
| ControlledRun.Controller.DeliverScript | containers/harbor-launcher/yacht_harbor_agents/controlled_omp.py:633-736 | The loop delivers turn after turn and leaves where the deadline, a lost reply, a fault or the end of the script makes it. |
| ControlledRun.Controller.WriteSummaryAfterClose | containers/harbor-launcher/yacht_harbor_agents/controlled_omp.py:284-411 | After close and cleanup the summary repeats the evidence with complete totals; the hand-off is replaced only when shutdown, close and cleanup succeeded, and holds as much of summary, manifest and artifacts as the step that failed lets it. |
| ControlledRun.Controller.Publish | containers/harbor-launcher/yacht_harbor_agents/controlled_omp.py:384-410 | Publishing removes the hand-off, copies the summary, writes the manifest and copies the artifacts that are there; a step that fails raises and leaves what the steps before it made. |
| ControlledRun.PublishedIsCoherent | containers/harbor-launcher/yacht_harbor_agents/controlled_omp.py:384-410 | Wherever a publication fails, a hand-off never mixes two results: its manifest and its artifacts are those of the summary in it, and there is no artifact without a manifest. |
| ControlledRun.ArtifactIff | containers/harbor-launcher/yacht_harbor_agents/controlled_omp.py:404-410 | The artifacts copied are exactly those that a record names and the evidence still holds. |
| ControlledRun.SecondHandoff | containers/harbor-launcher/yacht_harbor_agents/controlled_omp.py:384-410 | After a first closing that raised and a second one, the hand-off is coherent; it claims a valid run exactly when the first one left a valid summary there that the second does not remove, and what it holds is otherwise the summary in the evidence. |
| ControlledRun.Controller.Finalize | containers/harbor-launcher/yacht_harbor_agents/controlled_omp.py:550-586 | A failed shutdown invalidates the run and withholds publication; an earlier error is kept and validity never returns. |
| ControlledRun.Controller.CloseDown | containers/harbor-launcher/yacht_harbor_agents/controlled_omp.py:737-756 | After an exception or a cancellation, of delivery or of closing, publication included, the run closes down once more and raises; the summary then on disk, and whether the hand-off claims a valid run, follow from the two closings. |
| ControlledRun.ClosedTraceIsOrderly | containers/harbor-launcher/yacht_harbor_agents/controlled_omp.py:384-410 | The prompts of a trace are a script prefix, and a completed publication is its last effect, right after the acknowledged shutdown, the confirmed close, the cleanup and the writing of that same summary. |
| ControlledRun.RunControlledOmp | containers/harbor-launcher/yacht_harbor_agents/controlled_omp.py:444-756 | On every exit path: how far delivery gets, whether the run returns and whether there is a summary are determined; messages are the records of a script prefix, captures those due up to the read that fails, sessions and settings as reported; the summary on disk is valid exactly after a clean delivery (whole script or deadline) and a first closing that reached publication and either completed it or was followed by one that wrote no summary; the hand-off claims a valid run exactly after a clean delivery whose closing was clean or left a stale hand-off, and otherwise any hand-off holds the very summary on disk; a hand-off is never mixed, and after a run that returns it is whole: the summary, its manifest and every artifact still in the evidence. |
| ControlledRun.HandoffContradictsEvidence | containers/harbor-launcher/yacht_harbor_agents/controlled_omp.py:384-410 | A world in which the hand-off claims a valid run although the run raised and the summary on disk is invalid: copying an artifact fails, and the second shutdown, which withholds publication, does too. |
| ControlledRun.SummaryIsValidIff | src/yacht/_execution_contract.py:192-261 | For a valid plan and a well-behaved driver the summary passes the contract exactly when no attempted capture read failed with an empty text. |
| ControlledRun.SilentReadIsRefused | containers/harbor-launcher/yacht_harbor_agents/controlled_omp.py:707-725 | For every plan with a capture after its first turn, a run that returns normally and whose summary the contract refuses, for the read fails with an empty text. |
| ControlledRun.CaptureIsValidIff | containers/harbor-launcher/yacht_harbor_agents/captures.py:294-329 | A capture record passes the contract exactly when it is not a failed read without a text. |
| ControlledRun.RunThenValidate | containers/harbor-launcher/yacht_harbor_agents/controlled_omp.py:354-383 | Running and then validating accepts under exactly that condition. |
| EndToEnd.DriverIsGood | containers/harbor-launcher/yacht_harbor_agents/omp_session.ts:223-227 | Whatever the interleaving inside the driver, the frames it hands out, error answers of calls that threw included, keep the loop bounds the controller copies into its records. |
| EndToEnd.EvidenceIsAcceptedIff | containers/harbor-launcher/yacht_harbor_agents/controlled_omp.py:671-688 | A valid plan, any interleaving in a driver that is prompted with the plan's budget, and any exit path: the evidence passes the contract exactly when no attempted capture read failed with an empty text. |
| EndToEnd.InvalidationStopsTheRun | containers/harbor-launcher/yacht_harbor_agents/controlled_omp.py:245-248 | Every settle resolved after an invalidation reaches the controller as a fatal frame. |
| EndToEnd.SettleEndIsRecorded | containers/harbor-launcher/yacht_harbor_agents/controlled_omp.py:673-675 | A driver's settle is recorded under its own ending and is fatal exactly when it is an error, invalid or not ready. |
| EndToEnd.DrivenEndIsKnown | containers/harbor-launcher/yacht_harbor_agents/controlled_omp.py:239-252 | Hence a clean run with this driver never ends as `error`. |
| EndToEnd.RecordsCountTheirTurns | containers/harbor-launcher/yacht_harbor_agents/controlled_omp.py:671-688 | With prompts sent and answered in order, the record of every turn that passed without a fault counts exactly the contexts that the gate admitted under that turn's id, whatever the interleaving inside the driver. |
| EndToEnd.ValidRunCountsEveryTurn | containers/harbor-launcher/yacht_harbor_agents/controlled_omp.py:671-688 | After a clean delivery every record does. |
| Quiesce.BaselineFromEntries | containers/harbor-launcher/yacht_harbor_agents/quiesce.py:155-165 | The baseline holds exactly the identities and the non-empty command lines of a scan. |
| Quiesce.ReapFromEntries | containers/harbor-launcher/yacht_harbor_agents/quiesce.py:168-185 | The loop selects, in table order, what is neither init, protected, a zombie nor in the baseline. |
| Quiesce.SelectionIsExact | containers/harbor-launcher/yacht_harbor_agents/controlled_omp.py:473-480 | An identity is selected exactly when it is live, not init, not protected and neither a baseline nor a scanner identity; a recycled pid is not excused by its number. |
| Quiesce.ChosenIff | containers/harbor-launcher/yacht_harbor_agents/controlled_omp.py:463-482 | A round selects exactly what its scan saw alive and that is neither init, protected, in the baseline nor a scanner of the baseline scan, of this round or of an earlier one. |
| Quiesce.DroppingScanners | containers/harbor-launcher/yacht_harbor_agents/controlled_omp.py:473-480 | Dropping scanner identities afterwards is the same as never selecting them. |
| Quiesce.Kill | containers/harbor-launcher/yacht_harbor_agents/controlled_omp.py:41-62 | The kill scripts run in order until one cannot be run, and raise exactly then; `HitIff` and `StruckByScriptIff` say whom they signal and strike. |
| Quiesce.HitIff | containers/harbor-launcher/yacht_harbor_agents/controlled_omp.py:45-62 | A target is signalled exactly when a script that is run finds it in the table with its start time, and no zombie. |
| Quiesce.StruckByScriptIff | containers/harbor-launcher/yacht_harbor_agents/controlled_omp.py:45-62 | A process is struck exactly when a script that is run finds its target in the table with its start time, and no zombie, and the process belongs to the group with the target's number, or is a target without such a group. |
| Quiesce.Reaper.FinalCleanup | containers/harbor-launcher/yacht_harbor_agents/controlled_omp.py:463-495 | At most six rounds; it returns normally exactly when its last scan selected nothing, and raises on a missing baseline, a failed scan, a failed script or after six working rounds. |
| Quiesce.QuietRoundSawNothing | containers/harbor-launcher/yacht_harbor_agents/controlled_omp.py:481-482 | A normal return follows a successful scan of only init, protected processes, zombies, baseline identities and scanners. |
| Quiesce.SignalsAreSafe | containers/harbor-launcher/yacht_harbor_agents/controlled_omp.py:45-62 | The target of a signal was selected, is neither init, protected nor known nor a scanner of any round so far, and as the script looked was in the table with the selected start time and no zombie. |
| Quiesce.SparedIsStruckIff | containers/harbor-launcher/yacht_harbor_agents/controlled_omp.py:57-61 | A process that must be left alone is struck in a round exactly when one of the targets, as the script finds it, has the number of that process's group. |
| Quiesce.ProtectedIsStruck | containers/harbor-launcher/yacht_harbor_agents/controlled_omp.py:57-61 | A table of two processes in which a protected process is in the group of the target and is struck. |
| Quiesce.TargetIsStruckIff | containers/harbor-launcher/yacht_harbor_agents/controlled_omp.py:57-61 | A target is struck itself exactly when it is in the group with its own number or that group is empty. |
| Quiesce.TargetIsMissed | containers/harbor-launcher/yacht_harbor_agents/controlled_omp.py:57-61 | A table of two processes in which the target has left the group with its number to the other one and is not struck. |
| Quiesce.CooperativeTableSettles | containers/harbor-launcher/yacht_harbor_agents/controlled_omp.py:470-482 | When what was asked for is gone at the next look and nothing new appeared, the second scan is quiet. |
| Framing.Utf8Injective | src/yacht/courses/selection.py:114-117 | UTF-8 (section 3 of RFC 3629) encodes different texts differently. |
| Framing.StreamInjective | src/yacht/courses/selection.py:114-117 | Different lists of fields below 2^64 bytes never feed the hash the same bytes. |
| Framing.FieldLayout | src/yacht/courses/selection.py:114-117 | A field is eight bytes that spell, the most significant first, how many bytes of UTF-8 follow, and these. |
| Framing.RankInputIs | src/yacht/courses/selection.py:71-76 | The rank is hashed over the fields domain, seed and id, in this order. |
| Framing.PopulationInputIs | src/yacht/courses/selection.py:79-85 | The population is hashed over domain, number of ids and the ids. |
| Framing.RankInputInjective | src/yacht/courses/selection.py:71-76 | The bytes ranked determine the seed and the id. |
| Framing.PopulationInputInjective | src/yacht/courses/selection.py:79-85 | The bytes digested determine the sorted ids. |
| Framing.DomainsAreSeparate | src/yacht/courses/selection.py:12-13 | A rank input is never a population input. |
| Selection.BeforeTotal | src/yacht/courses/selection.py:39-50 | Ranks and texts order different ids strictly, even if the hash collides. |
| Selection.RankedBeforeIff | src/yacht/courses/selection.py:39-51 | An id is ranked before another exactly when the hash of its seed and text is a proper prefix or has the smaller byte where they first differ, or the hashes are the same and its text comes first so. |
| Selection.TextBeforeIff | src/yacht/courses/selection.py:79-85 | The digest sorts texts by their bytes. |
| Selection.ValidatedPopulation | src/yacht/courses/selection.py:88-101 | The loop accepts exactly non-empty lists of distinct non-empty ids. |
| Selection.SelectRandomInstances | src/yacht/courses/selection.py:21-60 | Accepts exactly sound requests, and selects as many distinct members as asked, in order, each before every member left out. |
| Selection.SelectionIgnoresOrder | src/yacht/courses/selection.py:39-59 | Two populations with the same ids give the same selection and the same digest. |
| Selection.SelectionGrows | src/yacht/courses/selection.py:50 | The selection of k instances is a prefix of that of k + 1. |
| Selection.DigestIdentifiesPopulation | src/yacht/courses/selection.py:79-85 | Unless the hash collides on those two inputs, digests are equal exactly for equal sets of ids. |
| Sorting.SortedEqualIff | src/yacht/courses/selection.py:41-50 | Sorting distinct items forgets their order and nothing else. |
| Sorting.LeastIsUnique | src/yacht/courses/selection.py:39-51 | The requirements on the least items leave no choice. |
| SkillStages.Recorder.Record | src/yacht/harnesses/pi.py:504-512 | Recording keeps the better of two outcomes and the order of first insertion. |
| SkillStages.Recorder.Scans | src/yacht/harnesses/pi.py:436-493 | One event of either stream dialect changes outcomes and calls exactly as the actions it stands for. |
| SkillStages.StreamsAdd | src/yacht/harnesses/pi.py:436-493 | A stream acts as its parts do, one after the other. |
| SkillStages.EventShows | src/yacht/harnesses/pi.py:436-493 | What one event of either dialect amounts to: an opening, an answer or nothing. |
| SkillStages.MessagesAdd | src/yacht/harnesses/pi.py:460-480 | An assistant message acts as its items do, in order. |
| SkillStages.CallsStandForLatest | src/yacht/harnesses/pi.py:447-455 | The call table maps an id to the skill of its latest opening. |
| SkillStages.OutcomesAreBest | src/yacht/harnesses/pi.py:431-493 | After any prefix a skill has exactly its best evidence: attempted, then not delivered, then loaded. |
| SkillStages.SkillStagesFromEvents | src/yacht/harnesses/pi.py:431-501 | The stages are, per skill with evidence, the best evidence of the whole stream, in the order in which skills were first opened. |
| SkillStages.LoadedIff | src/yacht/harnesses/pi.py:449-458 | A skill is loaded exactly when a successful answer with text carries a call id whose latest opening was that skill. |
| SkillStages.NotDeliveredIff | src/yacht/harnesses/pi.py:449-458 | A skill is not delivered exactly when some answer to its latest opening failed and none succeeded with text. |
| EpisodeRelay.PlanForTask | containers/harbor-launcher/yacht_harbor_agents/episodes.py:71-130 | Accepts exactly acceptable plans, unchanged. |
| EpisodeRelay.DeltaTexts | src/yacht/courses/episodes.py:118-140 | Accepts exactly directories of numbered, non-blank deltas from 002 on, and keeps each file's text under its number. |
| EpisodeRelay.RequireContiguous | src/yacht/courses/episodes.py:143-156 | Deltas pass exactly when they run from 2 without a gap and within the maximum. |
| EpisodeRelay.RenderEpisodePlan | src/yacht/courses/episodes.py:45-94 | Renders exactly the renderable declarations; every rendered plan is acceptable inside the trial and gives each later episode its delta or the continue text. |
| EpisodeRelay.RunEpisodes | containers/harbor-launcher/yacht_harbor_agents/agents.py:368-470 | Every instruction lookup is in range; the relay goes on exactly while episodes are recorded, unfailed and unresolved, and writes the record of all episodes so far whatever ends it. |
| EpisodeRelay.TextsAre | containers/harbor-launcher/yacht_harbor_agents/agents.py:368-400 | The first episode gets the task's instruction, and each later one its own. |
| EpisodeRelay.RecordTells | containers/harbor-launcher/yacht_harbor_agents/agents.py:400-450 | What the record of an episode tells of its exit, its stream and its verifier. |
| EpisodeRelay.GoesOnIff | containers/harbor-launcher/yacht_harbor_agents/agents.py:400-450 | The relay goes on after an episode exactly when it ended naturally or timed out and was cleaned up, and no verifier after it raised or gave a full reward. |
| EpisodeRelay.ResolutionIff | containers/harbor-launcher/yacht_harbor_agents/agents.py:445-467 | A resolution is claimed exactly when the last recorded episode was not the plan's last, was no error, and its verifier gave a full reward. |
| EpisodeRelay.RelayIsOrderly | containers/harbor-launcher/yacht_harbor_agents/agents.py:445-467 | Records are numbered 1..n within the maximum, only the last may be an error, and a resolution names the last episode, before the plan's last, as the first with a full reward. |
| EpisodeRelay.ValidateEpisodes | src/yacht/contracts/schemas.py:1674-1712 | Accepts exactly well-formed relay records. |
| EpisodeRelay.RelayIsAcceptedIff | src/yacht/contracts/schemas.py:1710-1712 | A written relay passes exactly when no verifier answered with a negative reward and no recorded episode's stream named a negative cost. |
| EpisodeRelay.NegativeCostIsRefused | src/yacht/contracts/schemas.py:1710-1712 | For every plan a relay that runs to its end while its streams name a negative cost, and whose record is refused. |
| IndexReferences.RecordedIff | src/yacht/logbook/index.py:461-475 | A value is recorded exactly when it has no backslash and no `..` and points strictly below the Logbook, and what is recorded is where it points. |
| IndexReferences.AcceptedIff | src/yacht/logbook/index.py:345-367 | The current format accepts exactly relative, non-empty references without backslash and `..`. |
| IndexReferences.HistoricalAcceptedIff | src/yacht/logbook/index.py:345-390 | Read as POSIX or as Windows paths, the historical format accepts exactly the values that are written below their recorded Logbook, and the others that are not absolute, if what they stand for is not empty and has no `..`; they lead to that place in the Logbook. |
| IndexReferences.GuardNeverFires | src/yacht/logbook/index.py:363-367 | On a POSIX host, in both formats and both flavours, whatever passes the tests before it leads strictly below the Logbook: the last test of the code never fires. |
| IndexReferences.ReferenceRoundTrip | src/yacht/logbook/index.py:461-475 | What the writer records the reader resolves to the same place, and to the same relative place after the Logbook moved. |
| HistoricalReferences.HistoricalReferenceRelocates | src/yacht/logbook/index.py:345-390 | Whether a historical reference is accepted, and the place in the Logbook that it leads to, do not depend on where the Logbook now is. |
| HistoricalReferences.WindowsReferenceRelocates | src/yacht/logbook/index.py:371-390 | What was recorded below its Logbook on Windows, on a letter drive or a share, in whatever case and with whatever separators, leads to its own place in the moved Logbook. |
| HistoricalReferences.WindowsInput | src/yacht/logbook/index.py:371-390 | `C:\y\a.json` recorded below `C:\y` is found as `a.json`. |
| HistoricalReferences.PosixReferenceRelocatesIff | src/yacht/logbook/index.py:371-390 | An absolute POSIX reference written below its Logbook, none of the two a share, leads to its own place exactly when neither text has a backslash, or the part below the Logbook has none and names no drive except as all of its first component. |
| HistoricalReferences.BackslashLeadsElsewhere | src/yacht/logbook/index.py:371-379 | A file below its Logbook whose name is two names around a backslash is looked for as a file in a directory. |
| HistoricalReferences.BackslashInput | src/yacht/logbook/index.py:371-379 | `/x/log/a\b` recorded below `/x/log` is looked for as `a/b`. |
| HistoricalReferences.OutsideReferenceIsAccepted | src/yacht/logbook/index.py:380-390 | An absolute reference outside its recorded Logbook is refused as a POSIX path, but accepted once a backslash makes it a Windows path without a drive; it then leads below the Logbook. |
| HistoricalReferences.OutsideInput | src/yacht/logbook/index.py:380-390 | `/etc/a\b` recorded for a Logbook at `/x` is accepted. |
| HistoricalReferences.DotsBetweenBackslashesAreRefused | src/yacht/logbook/index.py:357-358 | A `..` between backslashes is refused. |
| HistoricalReferences.DotsInput | src/yacht/logbook/index.py:357-358 | `a\..\b` recorded for a Logbook at `/x` is refused. |
| RunIndex.RunKeepsInv | src/yacht/logbook/index.py:193-209 | After any calls, whichever writes fail, memory and disk agree and a child is listed once. |
| RunIndex.TerminalIsFinal | src/yacht/logbook/index.py:152-183 | A terminal index keeps its status, stage and end for good. |
| RunIndex.StatusTells | src/yacht/logbook/index.py:170-183 | Over any calls, the first committed finish with a terminal status decides status and end and may name the last stage; until then the index is running. |
| RunIndex.StageTells | src/yacht/logbook/index.py:152-155 | A running index is in the stage of its last committed advance, or starting. |
| RunIndex.ListedIff | src/yacht/logbook/index.py:157-168 | A run with repetitions lists exactly the children that were noted, and another none. |
| RunIndex.ChildrenTell | src/yacht/logbook/index.py:157-168 | A child has, in memory, the status noted for it last, committed or not. |
| RunIndex.DiskTells | src/yacht/logbook/index.py:193-209 | A call that is accepted and commits puts memory on disk with its time; any other leaves the disk alone. |
| RunIndex.TerminalChangesIff | src/yacht/logbook/index.py:157-168 | A terminal index still changes exactly by an accepted child that commits and is news, for recording a child does not look at the status. |
| RunIndex.SyncedIff | src/yacht/logbook/index.py:157-183 | Index and memory agree on the children after a call exactly when it is accepted and commits, or is a recording that brings nothing the index does not hold, or is no accepted recording and they agreed before. |
| RunIndex.FailedRecordIsPublished | src/yacht/logbook/index.py:167-168 | A child whose recording raised appears in the index after the next advance. |
| RunIndex.RunIndexLifecycle.RecordChild | src/yacht/logbook/index.py:157-168 | The object notes the child before it writes, as the step relation says. |
| RunIndex.RunIndexLifecycle.Finish | src/yacht/logbook/index.py:170-183 | Only a running index finishes, with a terminal status. |
| RunIndex.RunIndexLifecycle.RecordFailure | src/yacht/logbook/index.py:185-191 | Recording a failure ends a running index as `failed` and leaves one that has ended alone, and an index that cannot be written raises nothing further. |
| Scorecards.ComparisonSummaryCounts | src/yacht/reports/benchmark_scorecard.py:433-453 | The builder's comprehensions over the vessels, some of them through the list of live ones, yield for every key the plain count of the vessels it speaks about. |
| Scorecards.ScorecardSummaryCounts | src/yacht/reports/benchmark_scorecard.py:524-544 | The builder's sums over the comparisons' summaries are the plain counts over the vessels of all comparisons. |
| Scorecards.BuildScorecard | src/yacht/reports/benchmark_scorecard.py:103-135 | Builds exactly when every preflight verdict is there and every comparison has two vessels; each comparison holds the vessels of the evidence and their census, and the top level the census of all. |
| Scorecards.BuildableIff | src/yacht/reports/benchmark_scorecard.py:103-135 | A comparison can be built exactly when every vessel has a preflight verdict and, with the recorded baseline, there are two. |
| Scorecards.BuiltIs | src/yacht/reports/benchmark_scorecard.py:103-135 | A built comparison holds the recorded baseline first, then the vessels of the plan in order with their verdicts and grades, their census, and the lead of the second over the first. |
| Scorecards.RecountVessels | src/yacht/contracts/schemas.py:3205-3226 | The validator's loops over the live vessels and over the statuses compute the same census. |
| Scorecards.RecountComparisons | src/yacht/contracts/schemas.py:3253-3275 | Over comparisons that fit, the validator's loops over their summaries compute the census of all vessels. |
| Scorecards.ValidateScorecard | src/yacht/contracts/schemas.py:2953-3285 | The validator accepts exactly scorecards with comparisons of which each is the census of its vessels with their delta, and whose top level is the census of all vessels. |
| Scorecards.BuildThenRecount | src/yacht/reports/benchmark_scorecard.py:103-135 | What is built is accepted exactly when there is a comparison. |
| Scorecards.SummariesPartition | src/yacht/contracts/schemas.py:3253-3275 | In whatever is accepted, eligible + blocked + recorded = total = measured + missing + recorded. |
| Scorecards.CompletionFromSummary | src/yacht/reports/benchmark_scorecard.py:547-557 | In whatever is accepted, the status of its vessels can be read off the top-level summary. |
| LegacyScorecards.UpgradeIs | src/yacht/contracts/schemas.py:1739-1756 | Legacy names go, current names take their values unless they have their own, and nothing else in the object changes. |
| LegacyScorecards.NamesTell | src/yacht/contracts/schemas.py:1739-1756 | Which name becomes which, and that a current name keeps its own value. |
| LegacyScorecards.CopyUpgraded | src/yacht/contracts/schemas.py:1749-1756 | Renaming happens in a new dictionary and not in the one that was passed. |
| LegacyScorecards.UpgradeVessels | src/yacht/contracts/schemas.py:1767-1773 | Every vessel is copied before the unknown costs are written, and they are written into the copies. |
| LegacyScorecards.NormalizeTaskAttemptScorecard | src/yacht/contracts/schemas.py:1746-1783 | Over any heap of dictionaries without cycles, whether it raises or not, no dictionary reachable from the input is written to; the result is a new dictionary that stands for the level-by-level upgrade of the document, and it raises on a list that is not one of objects. |
| LegacyScorecards.NormalizedIsDone | src/yacht/contracts/schemas.py:1761-1782 | No legacy name is left at any level, and cost is unknown at every level above a vessel with unreported cost. |
| LegacyScorecards.VesselTells | src/yacht/contracts/schemas.py:1767-1773 | A vessel is renamed and otherwise kept, and its cost is unknown exactly when one of its sources is unreported. |
| LegacyScorecards.ComparisonTells | src/yacht/contracts/schemas.py:1761-1782 | A comparison keeps its level and upgrades its vessels one by one; the cost in its summary is unknown exactly when that of one of them is. |
| LegacyScorecards.DocumentTells | src/yacht/contracts/schemas.py:1746-1783 | A document keeps its level and upgrades its comparisons one by one; the cost in its summary is unknown exactly when that of one of them is. |
| LegacyScorecards.NormalizingTwiceIsOnce | src/yacht/contracts/schemas.py:1746-1783 | Normalizing is idempotent. |
| LegacyScorecards.UnchangedIff | src/yacht/contracts/schemas.py:1746-1783 | A document is left as it is exactly when it is fully upgraded already. |

## Left out

- PromptSession.ExactlyOneSettle: safety of every interleaving; that the external session ever becomes idle is not modelled, so neither is that a call ever reaches its return.
- PromptSession.SettlesCountTheirOwnLoops: a settle's usage, cost, timestamps and advisor block are not part of the session state (usage is in `Accounting`).
- SessionDriver.Driver.Shutdown: the wait for the running prompt, the second halt and abort after it, disposing of the external session and detaching the gate are not modelled.
- SessionDriver.Driver.StartPrompt: which waits follow is chosen by the step relation; the object has no scheduler of its own.
- ControlledRun.RunControlledOmp: the set of protected pids handed to the cleanup, the event log file and secret scrubbing are not modelled, and message and capture records are values, so aliasing of their dictionaries is not captured.
- ControlledRun.Controller.WriteSummaryAfterClose: each step of writing and publishing succeeds or fails as a whole, so a removal that fails is taken to have removed nothing; an artifact stands for its file.
- ControlledRun.SummaryIsValidIff: the advisor block is fixed to absent, and settings are the JSON types the contract names.
- Quiesce.Kill: the kill script's look and its signal are one step, and a signal to a group reaches all its members.
- Captures.ReadWithinLimit: opening the path component by component, symbolic links and file types are left to the file system.
- Framing.Utf8Injective: texts are sequences of Unicode scalar values; lone surrogates, which the encoder refuses, cannot occur.
- Selection.SelectRandomInstances: the seed and the count are integers already; the errors for other types are not modelled.
- SkillStages.SkillStagesFromEvents: the regular expression that reads a skill name off a path, and whether a result holds text, are inputs.
- EpisodeRelay.RunEpisodes: a record is a value, so adding the reward to a record already in the list is an update of its final value; the Claude, declared and controlled cold loops share this shape and are not repeated.
- EpisodeRelay.RenderEpisodePlan: the table's values already have their declared types.
- IndexReferences.ReferenceRoundTrip: resolution is lexical, without symbolic links, and two leading slashes of a POSIX path count as one.
- IndexReferences.GuardNeverFires: the host is a POSIX one; how a Windows host joins a reference to its Logbook is not modelled. Windows paths are those of Python 3.12, and case folding is any function.
- RunIndex.RunKeepsInv: a write commits or fails without effect; the artifacts' presence and the descriptive fields are left out.
- Scorecards.BuildScorecard: statistics, delivery blocks and task diagnostics are left out, as are the shape checks of single fields.
- LegacyScorecards.NormalizeTaskAttemptScorecard: lists are values, for the code never writes into one; a `comparisons` or `vessels` value that is not a list of objects counts as raising, even where iterating an empty text, an empty object or a list of pairs would not.
- Docker, compose, subprocess and SDK calls, the in-container readers and shell command strings are foreign effects.
- Field-shape checks, TOML loading, JSON Schema and regatta parsing are each settled by one branch.
- Statistics formulas, report rendering, the command line, dashboards, export and the release gate are not modelled.
- Advisor wiring widens records without making the proofs harder.
