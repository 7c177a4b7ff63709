/** One controlled run (run_controlled_omp and _write_summary_after_close of
    controlled_omp.py).

    The controller initializes the driver, delivers the message script one
    prompt at a time, reads the captures declared after each turn, and closes
    down: shutdown, transport close, process cleanup, summary, hand-off.  Every
    answer of the outside world is part of a `World`; the effects the outside
    can observe are recorded in `log`. */
module ControlledRun {
  import opened Accounting
  import opened ExecutionContract
  import opened Prelude
  import opened Text

  // ---------- What the outside answers ----------

  /** The data of a settle frame; `ready` is false only for a literal false, and
      `invalid` holds the reason text of a reported invalidation. */
  datatype SettleData = SettleData(
    ended: string,
    loopsStarted: int,
    loopsCompleted: int,
    continuationPossible: bool,
    ready: bool,
    invalid: Option<string>,
    error: string,
    usage: map<string, real>,
    cost: Option<real>,
    sessionId: string)

  /** `success` is false only for a literal false. */
  datatype Frame = Frame(success: bool, data: Option<SettleData>)

  datatype Reply = Reply(frame: Frame) | ReplyFailed | ReplyCancelled

  /** `policy` is None when the driver reported something other than an object. */
  datatype InitReply =
    | InitReply(success: bool, sessionId: string, policy: Option<map<string, Setting>>)
    | InitFailed
    | InitCancelled

  type Sha256 = s: string | IsSha256(s)
    witness seq(64, _ => '0')

  datatype Read =
    | ReadBytes(size: nat, digest: Sha256)
    | ReadMissing
    | ReadError(text: string)
    | ReadRaised
    | ReadCancelled

  /** How one awaited step ends: an exception is `Raised`, a cancellation `Cancelled`. */
  datatype Exit = Done | Raised | Cancelled

  /** How far storing the result gets: writing the summary, then replacing the hand-off
      step by step: the old one is removed, the summary copied, the manifest written, and
      the artifacts of the captures copied, of which so many records are reached. */
  datatype Store = WriteFails | ResetFails | CopyFails | ManifestFails | ArtifactsFail(reached: nat) | Stored

  datatype Closing = Closing(shutdown: Exit, close: Exit, cleanup: Exit, store: Store)

  /** Everything the controller will be told: by prompt number, by capture
      number, and for up to two attempts at closing down; `kept` tells which artifacts
      are still in the evidence when they are copied. */
  datatype World = World(
    init: InitReply,
    baseline: Exit,
    expired: nat -> bool,
    startedAt: nat -> string,
    finishedAt: nat -> string,
    reply: nat -> Reply,
    read: nat -> Read,
    kept: string -> bool,
    first: Closing,
    second: Closing)

  datatype Effect =
    | Prompted(id: string)
    | ShutdownAcked
    | CloseConfirmed
    | CleanupDone
    | SummaryWritten(summary: Summary)
    | Published(summary: Summary)

  /** The manifest repeats the verdict and the captures of the summary beside it. */
  datatype Manifest = Manifest(valid: bool, ended: string, captures: seq<CaptureRecord>)

  function ManifestOf(s: Summary): Manifest {
    Manifest(s.valid, s.ended, s.captures)
  }

  /** The artifacts copied for the first `n` records. */
  function ArtifactsOf(captures: seq<CaptureRecord>, kept: string -> bool, n: nat): seq<string>
    requires n <= |captures|
  {
    if n == 0 then []
    else
      var artifact := captures[n - 1].artifact;
      ArtifactsOf(captures, kept, n - 1) +
      (if artifact.Some? && artifact.value != "" && kept(artifact.value) then [artifact.value] else [])
  }

  /** The hand-off directory: as it was before the run, emptied, or holding a summary. */
  datatype Handoff =
    | Untouched
    | Emptied
    | Holds(summary: Summary, manifest: Option<Manifest>, artifacts: seq<string>)

  function WholeHandoff(s: Summary, kept: string -> bool): Handoff {
    Holds(s, Some(ManifestOf(s)), ArtifactsOf(s.captures, kept, |s.captures|))
  }

  /** What a publication that fails where `store` says makes of the hand-off. */
  function AfterPublish(store: Store, s: Summary, kept: string -> bool, before: Handoff): Handoff {
    match store
    case WriteFails => before
    case ResetFails => before
    case CopyFails => Emptied
    case ManifestFails => Holds(s, None, [])
    case ArtifactsFail(reached) =>
      var n := if reached < |s.captures| then reached else |s.captures|;
      Holds(s, Some(ManifestOf(s)), ArtifactsOf(s.captures, kept, n))
    case Stored => WholeHandoff(s, kept)
  }

  /** A hand-off is never mixed: its manifest and its artifacts are those of its own
      summary, and there is no artifact without a manifest. */
  ghost predicate Coherent(handoff: Handoff, kept: string -> bool) {
    handoff.Holds? ==>
      || (handoff.manifest.None? && handoff.artifacts == [])
      || (&& handoff.manifest == Some(ManifestOf(handoff.summary))
          && exists n :: 0 <= n <= |handoff.summary.captures| &&
               handoff.artifacts == ArtifactsOf(handoff.summary.captures, kept, n))
  }

  /** Copied is what a record names and the evidence still holds. */
  lemma {:induction false} ArtifactIff(captures: seq<CaptureRecord>, kept: string -> bool, n: nat, name: string)
    requires n <= |captures|
    ensures name in ArtifactsOf(captures, kept, n) <==>
            name != "" && kept(name) && exists i :: 0 <= i < n && captures[i].artifact == Some(name)
  {
    if n > 0 {
      ArtifactIff(captures, kept, n - 1, name);
    }
  }

  lemma {:induction false} PublishedIsCoherent(store: Store, s: Summary, kept: string -> bool, before: Handoff)
    requires Coherent(before, kept)
    ensures Coherent(AfterPublish(store, s, kept, before), kept)
  {
    var after := AfterPublish(store, s, kept, before);
    if store.ArtifactsFail? {
      var n := if store.reached < |s.captures| then store.reached else |s.captures|;
      assert after.artifacts == ArtifactsOf(after.summary.captures, kept, n);
    } else if store.Stored? {
      assert after.artifacts == ArtifactsOf(after.summary.captures, kept, |s.captures|);
    }
  }

  // ---------- The script, its records and its captures ----------

  function Script(plan: Plan, instruction: string): (script: seq<PlanTurn>)
    ensures script != []
  {
    match plan
    case Single(_) => [PlanTurn("initial", instruction)]
    case Retained(_, initial, turns, _) => [PlanTurn(initial, instruction)] + turns
  }

  /** The task's instruction goes first, under the id of the initial turn; then the turns of
      a retained plan in order. */
  lemma {:induction false} ScriptTells(plan: Plan, instruction: string)
    ensures var script := Script(plan, instruction);
            && script[0].instruction == instruction
            && (plan.Single? ==> |script| == 1 && script[0].id == "initial" && CapturesOf(plan) == [])
            && (plan.Retained? ==>
              && script[0].id == plan.initialTurnId && script[1..] == plan.turns && CapturesOf(plan) == plan.captures)
  {
  }

  function CapturesOf(plan: Plan): seq<PlanCapture> {
    if plan.Retained? then plan.captures else []
  }

  const NO_DATA := SettleData("", 0, 0, false, true, None, "", map[], None, "")

  function DataOf(frame: Frame): SettleData {
    if frame.data.Some? then frame.data.value else NO_DATA
  }

  function RecordedEnd(data: SettleData): string {
    if IsEnding(data.ended) then data.ended else "error"
  }

  /** The record of the `i`-th delivered message. */
  function RecordOf(world: World, id: string, i: nat): MessageRecord
    requires world.reply(i).Reply?
  {
    var data := DataOf(world.reply(i).frame);
    MessageRecord(id, RecordedEnd(data), world.startedAt(i), world.finishedAt(i),
                  data.loopsStarted, data.loopsCompleted, data.continuationPossible,
                  if Normalized(data.usage) == map[] then None else Some(Normalized(data.usage)),
                  NormalizedCost(data.cost))
  }

  function CaptureOf(capture: PlanCapture, index: nat, read: Read): CaptureRecord
    requires !read.ReadRaised? && !read.ReadCancelled?
  {
    var id := CaptureName(capture.after, index);
    match read
    case ReadBytes(size, digest) =>
      CaptureRecord(id, capture.after, capture.path, Captured, Some(size), Some(digest),
                    Some(ArtifactName(capture.after, index, digest)), None)
    case ReadMissing => CaptureRecord(id, capture.after, capture.path, Missing, None, None, None, None)
    case ReadError(text) =>
      CaptureRecord(id, capture.after, capture.path, Failed, None, None, None, if text == "" then None else Some(text))
  }

  /** What a capture record tells of its read. */
  lemma {:induction false} CaptureTells(capture: PlanCapture, index: nat, read: Read)
    requires !read.ReadRaised? && !read.ReadCancelled?
    ensures var record := CaptureOf(capture, index, read);
            && record.id == capture.after + "-" + Decimal(index)
            && record.after == capture.after && record.path == capture.path
            && (record.status == Captured <==> read.ReadBytes?) && (record.status == Missing <==> read.ReadMissing?)
            && (if read.ReadBytes? then
                  && record.bytes == Some(read.size) && record.sha256 == Some(read.digest) && record.error.None?
                  && record.artifact == Some(capture.after + "-" + Decimal(index) + "-" + read.digest[..12])
                else record.bytes.None? && record.sha256.None? && record.artifact.None?)
            && (read.ReadMissing? ==> record.error.None?)
            && (read.ReadError? ==> record.error == if read.text == "" then None else Some(read.text))
  {
  }

  /** The declaration numbers, below `n`, of the captures declared after `id`. */
  function IndicesAfter(captures: seq<PlanCapture>, id: string, n: nat): seq<nat>
    requires n <= |captures|
  {
    if n == 0 then []
    else IndicesAfter(captures, id, n - 1) + (if captures[n - 1].after == id then [n - 1] else [])
  }

  /** The captures due after the first `n` turns, in delivery and then declaration order. */
  function Schedule(captures: seq<PlanCapture>, script: seq<PlanTurn>, n: nat): seq<nat>
    requires n <= |script|
  {
    if n == 0 then []
    else Schedule(captures, script, n - 1) + IndicesAfter(captures, script[n - 1].id, |captures|)
  }

  // ---------- When a run is valid ----------

  predicate Fatal(frame: Frame) {
    || !frame.success
    || frame.data.None?
    || frame.data.value.invalid.Some?
    || frame.data.value.ended == "error"
    || !frame.data.value.ready
  }

  predicate MayContinue(data: SettleData) {
    (data.ended == "cap" || data.ended == "timeout") ==> data.continuationPossible
  }

  predicate InitClean(world: World) {
    world.init.InitReply? && world.init.success && world.init.policy.Some? && world.baseline.Done?
  }

  predicate ReadClean(read: Read) {
    read.ReadBytes? || read.ReadMissing?
  }

  predicate Attempted(read: Read) {
    !read.ReadRaised? && !read.ReadCancelled?
  }

  predicate CapturesClean(world: World, captures: seq<PlanCapture>, id: string) {
    forall k :: 0 <= k < |captures| && captures[k].after == id ==> ReadClean(world.read(k))
  }

  predicate TurnClean(world: World, captures: seq<PlanCapture>, script: seq<PlanTurn>, i: nat)
    requires i < |script|
  {
    && world.reply(i).Reply? && !Fatal(world.reply(i).frame)
    && CapturesClean(world, captures, script[i].id)
    && (i + 1 < |script| ==> MayContinue(DataOf(world.reply(i).frame)))
  }

  /** The first `n` messages were delivered without a fault, and they are the whole
      script unless the deadline stopped it. */
  predicate CleanDelivery(world: World, captures: seq<PlanCapture>, script: seq<PlanTurn>, n: nat) {
    && n <= |script|
    && InitClean(world)
    && (forall i :: 0 <= i < n ==> TurnClean(world, captures, script, i))
    && (n < |script| ==> world.expired(n))
  }

  /** A turn is clean exactly when its settle succeeded, is ready and neither invalid nor
      an error, every capture due after it was read or found missing, and, with a turn
      still to come, it ended by no cap and no timeout or can be continued. */
  lemma {:induction false} TurnIsCleanIff(world: World, captures: seq<PlanCapture>, script: seq<PlanTurn>, i: nat)
    requires i < |script| && world.reply(i).Reply?
    ensures TurnClean(world, captures, script, i) <==>
            var frame := world.reply(i).frame;
            && frame.success && frame.data.Some? && frame.data.value.invalid.None?
            && frame.data.value.ended != "error" && frame.data.value.ready
            && (forall k :: 0 <= k < |captures| && captures[k].after == script[i].id ==>
              world.read(k).ReadBytes? || world.read(k).ReadMissing?)
            && (i + 1 < |script| && frame.data.value.ended in ["cap", "timeout"] ==>
              frame.data.value.continuationPossible)
  {
    assert forall text: string :: text in ["cap", "timeout"] <==> text == "cap" || text == "timeout";
    assert world.reply(i).frame.data.Some? ==> DataOf(world.reply(i).frame) == world.reply(i).frame.data.value;
  }

  /** Where delivery stops: nothing is sent without a clean start; then turn after
      turn is sent until the script ends, the deadline passes, a prompt gets no
      answer (`sent == n + 1`) or a turn is not clean. */
  predicate StopsAt(world: World, captures: seq<PlanCapture>, script: seq<PlanTurn>, n: nat, sent: nat) {
    && n <= sent <= |script|
    && (!InitClean(world) ==> sent == 0)
    && (InitClean(world) ==>
      && (forall i :: 0 <= i < n ==> !world.expired(i) && world.reply(i).Reply?)
      && (forall i :: 0 <= i < n - 1 ==> TurnClean(world, captures, script, i))
      && (if sent == n then
        n == |script| || world.expired(n) || (n > 0 && !TurnClean(world, captures, script, n - 1))
      else
        && sent == n + 1 && !world.expired(n) && !world.reply(n).Reply?
        && (n > 0 ==> TurnClean(world, captures, script, n - 1))))
  }

  /** The world determines how far a run gets. */
  lemma {:induction false} StopIsUnique(world: World, captures: seq<PlanCapture>, script: seq<PlanTurn>, n: nat,
                                        sent: nat, m: nat, tent: nat)
    requires StopsAt(world, captures, script, n, sent) && StopsAt(world, captures, script, m, tent)
    ensures n == m && sent == tent
  {
    if n < m {
      NoStopBefore(world, captures, script, n, sent, m, tent);
    } else if m < n {
      NoStopBefore(world, captures, script, m, tent, n, sent);
    }
  }

  lemma {:induction false} NoStopBefore(world: World, captures: seq<PlanCapture>, script: seq<PlanTurn>, n: nat,
                                        sent: nat, m: nat, tent: nat)
    requires StopsAt(world, captures, script, m, tent) && n < m
    ensures !StopsAt(world, captures, script, n, sent)
  {
    assert !world.expired(n) && world.reply(n).Reply?;
    assert n > 0 ==> TurnClean(world, captures, script, n - 1);
  }

  /** How many of the first `n` due reads come before the first one that is not clean. */
  function CleanReads(world: World, due: seq<nat>, n: nat): (clean: nat)
    requires n <= |due|
    ensures clean <= n && (clean < n ==> !ReadClean(world.read(due[clean])))
  {
    if n == 0 then 0
    else if CleanReads(world, due, n - 1) == n - 1 && ReadClean(world.read(due[n - 1])) then n
    else CleanReads(world, due, n - 1)
  }

  lemma {:induction false} NoneClean(world: World, due: seq<nat>, n: nat)
    requires n <= |due| && forall k :: 0 <= k < n ==> !ReadClean(world.read(due[k]))
    ensures CleanReads(world, due, n) == 0
  {
    if n > 0 {
      NoneClean(world, due, n - 1);
    }
  }

  lemma {:induction false} CleanReadsSettle(world: World, due: seq<nat>, n: nat, m: nat)
    requires n < m <= |due| && CleanReads(world, due, n) == n && !ReadClean(world.read(due[n]))
    ensures CleanReads(world, due, m) == n
  {
    if n + 1 < m {
      CleanReadsSettle(world, due, n, m - 1);
    }
  }

  /** How many due captures are recorded: the clean reads, and the read that fails. */
  function TakenReads(world: World, due: seq<nat>): (taken: nat)
    ensures taken <= |due|
  {
    var clean := CleanReads(world, due, |due|);
    if clean < |due| && Attempted(world.read(due[clean])) then clean + 1 else clean
  }

  /** How many captures are recorded once `n` messages are: all that were due before the
      last one, and what was taken after it unless it was fatal. */
  function CaptureCount(world: World, captures: seq<PlanCapture>, script: seq<PlanTurn>, n: nat): nat
    requires n <= |script|
  {
    if n == 0 then 0
    else
      |Schedule(captures, script, n - 1)| +
      if !world.reply(n - 1).Reply? || Fatal(world.reply(n - 1).frame) then 0
      else TakenReads(world, IndicesAfter(captures, script[n - 1].id, |captures|))
  }

  /** The first due read that is not clean ends in an exception or a cancellation. */
  predicate ReadsRaise(world: World, due: seq<nat>) {
    var clean := CleanReads(world, due, |due|);
    clean < |due| && !Attempted(world.read(due[clean]))
  }

  predicate TurnRaises(world: World, captures: seq<PlanCapture>, script: seq<PlanTurn>, i: nat)
    requires i < |script|
  {
    && world.reply(i).Reply? && !Fatal(world.reply(i).frame)
    && ReadsRaise(world, IndicesAfter(captures, script[i].id, |captures|))
  }

  /** The delivery of `n` messages ended in an exception or a cancellation. */
  predicate Interrupted(world: World, captures: seq<PlanCapture>, script: seq<PlanTurn>, n: nat, sent: nat)
    requires n <= |script|
  {
    || !world.init.InitReply?
    || (world.init.success && !InitClean(world))
    || sent > n
    || (n > 0 && TurnRaises(world, captures, script, n - 1))
  }

  /** A closing that gets as far as writing its summary. */
  predicate Writes(closing: Closing) {
    && !closing.shutdown.Cancelled? && !closing.close.Cancelled?
    && !(closing.close.Done? && closing.cleanup.Cancelled?)
    && !closing.store.WriteFails?
  }

  /** A closing that gets as far as replacing the hand-off. */
  predicate Attempts(closing: Closing) {
    && closing.shutdown.Done? && closing.close.Done? && closing.cleanup.Done?
    && !closing.store.WriteFails?
  }

  predicate ClosingReturns(closing: Closing) {
    Writes(closing) && (Attempts(closing) ==> closing.store.Stored?)
  }

  predicate CleanClosing(closing: Closing) {
    Attempts(closing) && closing.store.Stored?
  }

  /** A closing that leaves an earlier hand-off where it is. */
  predicate Spares(closing: Closing) {
    !Attempts(closing) || closing.store.ResetFails?
  }

  /** The first closing copies its summary into the hand-off and then fails, and the
      second closing does not remove it. */
  predicate LeavesStale(world: World) {
    && Attempts(world.first) && (world.first.store.ManifestFails? || world.first.store.ArtifactsFail?)
    && Spares(world.second)
  }

  /** The hand-off after a closing that leaves this summary in the evidence. */
  function AfterClosing(closing: Closing, written: Option<Summary>, kept: string -> bool, before: Handoff): Handoff {
    if Attempts(closing) && written.Some? then AfterPublish(closing.store, written.value, kept, before) else before
  }

  /** The hand-off after the first closing: coherent, whole after one that returns, and
      the summary in it, if any, is the one in the evidence. */
  lemma {:induction false} FirstHandoff(world: World, written: Option<Summary>, handoff: Handoff)
    requires handoff == AfterClosing(world.first, written, world.kept, Untouched)
    ensures Coherent(handoff, world.kept)
    ensures handoff.Holds? ==> written == Some(handoff.summary)
    ensures ClosingReturns(world.first) && handoff.Holds? ==> handoff == WholeHandoff(handoff.summary, world.kept)
    ensures handoff.Holds? <==>
            && written.Some? && Attempts(world.first)
            && !world.first.store.ResetFails? && !world.first.store.CopyFails?
  {
    if Attempts(world.first) && written.Some? {
      PublishedIsCoherent(world.first.store, written.value, world.kept, Untouched);
    }
  }

  /** The hand-off after a first closing that raised and a second one, which never
      writes a valid summary. */
  lemma {:induction false} SecondHandoff(world: World, first: Option<Summary>, between: Handoff,
                                         written: Option<Summary>, handoff: Handoff)
    requires !ClosingReturns(world.first) && (Writes(world.first) ==> first.Some?)
    requires Attempts(world.second) ==> written.Some? && !written.value.valid
    requires between == AfterClosing(world.first, first, world.kept, Untouched)
    requires handoff == AfterClosing(world.second, written, world.kept, between)
    ensures Coherent(handoff, world.kept)
    ensures handoff.Holds? && handoff.summary.valid <==> LeavesStale(world) && first.value.valid
    ensures handoff.Holds? && !LeavesStale(world) ==> written == Some(handoff.summary)
  {
    FirstHandoff(world, first, between);
    if Attempts(world.second) {
      PublishedIsCoherent(world.second.store, written.value, world.kept, between);
    }
  }

  /** What the answers at closing mean: the summary is written unless something was
      cancelled first or writing fails; a hand-off is begun only after all three answers and
      a written summary; a closing returns if it writes and, once begun, completes it. */
  lemma {:induction false} ClosingTells(closing: Closing)
    ensures var ended := closing.shutdown.Cancelled? || closing.close.Cancelled?
                         || (closing.close.Done? && closing.cleanup.Cancelled?);
            var settled := closing.shutdown.Done? && closing.close.Done? && closing.cleanup.Done?;
            && (Writes(closing) <==> !ended && closing.store != WriteFails)
            && (Attempts(closing) <==> settled && closing.store != WriteFails)
            && (ClosingReturns(closing) <==>
              !ended && closing.store != WriteFails && (settled ==> closing.store == Stored))
            && (CleanClosing(closing) <==> settled && closing.store == Stored)
            && (settled ==> ClosingFault(closing).None?)
            && (closing.shutdown != Done ==> ClosingFault(closing) == Some("shutdown failed"))
            && (closing.shutdown == Done && closing.close != Done ==>
              ClosingFault(closing) == Some("transport close unconfirmed"))
            && (closing.shutdown == closing.close == Done && closing.cleanup != Done ==>
              ClosingFault(closing) == Some("quiescence failed"))
  {
  }

  function EndOf(world: World, script: seq<PlanTurn>, n: nat): string
    requires n > 0 ==> world.reply(n - 1).Reply?
  {
    if n < |script| || n == 0 then "timeout" else RecordedEnd(DataOf(world.reply(n - 1).frame))
  }

  function FatalText(frame: Frame): string {
    var data := DataOf(frame);
    if data.invalid.Some? && data.invalid.value != "" then data.invalid.value
    else if data.error != "" then data.error
    else "prompt failed"
  }

  /** What a delivery that stopped after `n` messages is blamed on. */
  function FaultText(world: World, captures: seq<PlanCapture>, script: seq<PlanTurn>, n: nat): string
    requires 0 < n <= |script| && world.reply(n - 1).Reply?
  {
    if Fatal(world.reply(n - 1).frame) then FatalText(world.reply(n - 1).frame)
    else if !CapturesClean(world, captures, script[n - 1].id) then "capture failed"
    else RecordedEnd(DataOf(world.reply(n - 1).frame)) + " left scheduled messages undelivered"
  }

  function ClosingFault(closing: Closing): Option<string> {
    if !closing.shutdown.Done? then Some("shutdown failed")
    else if !closing.close.Done? then Some("transport close unconfirmed")
    else if !closing.cleanup.Done? then Some("quiescence failed")
    else None
  }

  /** A run without a fault still ends as `error` exactly when the script was delivered
      and the driver's last ending is a text the controller does not know: the test for
      a fatal settle only knows the word itself. */
  lemma {:induction false} CleanEndIsErrorIff(world: World, captures: seq<PlanCapture>, script: seq<PlanTurn>, n: nat)
    requires CleanDelivery(world, captures, script, n)
    ensures n > 0 ==> world.reply(n - 1).Reply?
    ensures EndOf(world, script, n) == "error" <==>
            n == |script| && n > 0 && !IsEnding(DataOf(world.reply(n - 1).frame).ended)
  {
    if n > 0 {
      assert TurnClean(world, captures, script, n - 1);
    }
  }

  /** How a delivery without a fault ends: as a timeout if the deadline stopped it, and
      otherwise as its last settle did. */
  lemma {:induction false} CleanEndTells(world: World, captures: seq<PlanCapture>, script: seq<PlanTurn>, n: nat)
    requires CleanDelivery(world, captures, script, n) && script != []
    ensures n > 0 ==> world.reply(n - 1).Reply?
    ensures n < |script| ==> EndOf(world, script, n) == "timeout"
    ensures n == |script| ==>
              && world.reply(n - 1).Reply? && world.reply(n - 1).frame.data.Some?
              && var ended := world.reply(n - 1).frame.data.value.ended;
                 EndOf(world, script, n) ==
                 if ended == "natural" || ended == "cap" || ended == "timeout" then ended else "error"
  {
    if n > 0 {
      assert TurnClean(world, captures, script, n - 1);
    }
  }

  /** What a turn that is not clean is blamed on: a settle that failed, on the reason of an
      invalidation, or else on the error it reports; then a capture; then its own ending. */
  lemma {:induction false} FaultTells(world: World, captures: seq<PlanCapture>, script: seq<PlanTurn>, n: nat)
    requires 0 < n <= |script| && world.reply(n - 1).Reply?
    ensures var frame, text := world.reply(n - 1).frame, FaultText(world, captures, script, n);
            if frame.success && frame.data.Some? && frame.data.value.invalid.None?
               && frame.data.value.ended != "error" && frame.data.value.ready then
              if exists k :: 0 <= k < |captures| && captures[k].after == script[n - 1].id
                             && !world.read(k).ReadBytes? && !world.read(k).ReadMissing? then
                text == "capture failed"
              else
                var ended := frame.data.value.ended;
                text == (if ended == "natural" || ended == "cap" || ended == "timeout" then ended else "error") +
                        " left scheduled messages undelivered"
            else if frame.data.Some? && frame.data.value.invalid.Some? && frame.data.value.invalid.value != "" then
              text == frame.data.value.invalid.value
            else if frame.data.Some? && frame.data.value.error != "" then text == frame.data.value.error
            else text == "prompt failed"
  {
  }

  /** What a run that delivered `n` messages and then closed normally reports. */
  function Blame(world: World, captures: seq<PlanCapture>, script: seq<PlanTurn>, n: nat,
                 closing: Closing): (error: Option<string>)
    requires 0 < n <= |script| ==> world.reply(n - 1).Reply?
    requires n <= |script|
  {
    if !CleanDelivery(world, captures, script, n) then
      Some(if n == 0 then "init failed" else FaultText(world, captures, script, n))
    else ClosingFault(closing)
  }

  /** The first thing that went wrong is what a run that closed normally is blamed on. */
  lemma {:induction false} BlameTells(world: World, captures: seq<PlanCapture>, script: seq<PlanTurn>, n: nat,
                                      closing: Closing)
    requires 0 < n <= |script| ==> world.reply(n - 1).Reply?
    requires n <= |script|
    ensures var blame, init := Blame(world, captures, script, n, closing), world.init;
            var started := init.InitReply? && init.success && init.policy.Some? && world.baseline.Done?;
            && (n == 0 && !started ==> blame == Some("init failed"))
            && (n > 0 && !TurnClean(world, captures, script, n - 1) ==>
              blame == Some(FaultText(world, captures, script, n)))
            && (CleanDelivery(world, captures, script, n) ==> blame == ClosingFault(closing))
  {
  }

  /** The first `n` turns were sent in time and are clean. */
  predicate Underway(world: World, captures: seq<PlanCapture>, script: seq<PlanTurn>, n: nat)
    requires n <= |script|
  {
    if n == 0 then InitClean(world)
    else
      && Underway(world, captures, script, n - 1)
      && !world.expired(n - 1) && TurnClean(world, captures, script, n - 1)
  }

  /** How the delivery loop leaves at turn `i`. */
  predicate Leaves(world: World, captures: seq<PlanCapture>, script: seq<PlanTurn>, i: nat, n: nat, sent: nat,
                   done: bool, clean: bool) {
    && i <= |script|
    && if i == |script| || world.expired(i) then n == i && sent == i && done && clean
    else
      && sent == i + 1 && !(done && clean)
      && if !world.reply(i).Reply? then n == i && !done
      else n == i + 1 && !TurnClean(world, captures, script, i) && (done <==> !TurnRaises(world, captures, script, i))
  }

  lemma {:induction false} UnderwayTurns(world: World, captures: seq<PlanCapture>, script: seq<PlanTurn>, n: nat)
    requires n <= |script| && Underway(world, captures, script, n)
    ensures InitClean(world)
    ensures forall i :: 0 <= i < n ==>
                          !world.expired(i) && world.reply(i).Reply? && TurnClean(world, captures, script, i)
  {
    if n > 0 {
      UnderwayTurns(world, captures, script, n - 1);
    }
  }

  /** However a delivery that is underway leaves its loop, it stops where it must. */
  lemma {:induction false} LeavingStops(world: World, captures: seq<PlanCapture>, script: seq<PlanTurn>, i: nat,
                                        n: nat, sent: nat, done: bool, clean: bool)
    requires i <= |script| && Underway(world, captures, script, i)
    requires Leaves(world, captures, script, i, n, sent, done, clean)
    ensures StopsAt(world, captures, script, n, sent)
    ensures done && clean <==> CleanDelivery(world, captures, script, n)
    ensures done <==> !Interrupted(world, captures, script, n, sent)
  {
    UnderwayTurns(world, captures, script, i);
    if i > 0 {
      CleanTurnTakesAll(world, captures, script, i - 1);
    }
    if n == i + 1 {
      assert !TurnClean(world, captures, script, n - 1);
    }
  }

  /** What a sent turn means for the loop: with `more` it goes round again. */
  lemma {:induction false} TurnDecides(world: World, captures: seq<PlanCapture>, script: seq<PlanTurn>, i: nat,
                                       n: nat, done: bool, clean: bool, more: bool)
    requires i < |script| && Underway(world, captures, script, i) && !world.expired(i)
    requires n == if world.reply(i).Reply? then i + 1 else i
    requires done && clean <==> TurnClean(world, captures, script, i)
    requires done <==> world.reply(i).Reply? && !TurnRaises(world, captures, script, i)
    requires (more ==> done && clean) && (done && clean && i + 1 < |script| ==> more)
    ensures done && clean ==> Underway(world, captures, script, i + 1)
    ensures !more ==>
              Leaves(world, captures, script, if done && clean then i + 1 else i, n, i + 1, done, clean)
  {
  }

  /** After a clean turn every capture due so far is recorded. */
  lemma {:induction false} CleanTurnTakesAll(world: World, captures: seq<PlanCapture>, script: seq<PlanTurn>, i: nat)
    requires i < |script| && TurnClean(world, captures, script, i)
    ensures !TurnRaises(world, captures, script, i)
    ensures CaptureCount(world, captures, script, i + 1) == |Schedule(captures, script, i + 1)|
  {
    IndicesAreInRange(captures, script[i].id, |captures|);
  }

  /** A turn ends in an exception or a cancellation exactly when its settle is not fatal
      and the first of its captures that is neither read nor found missing does. */
  lemma {:induction false} TurnRaisesIff(world: World, captures: seq<PlanCapture>, script: seq<PlanTurn>, i: nat)
    requires i < |script| && world.reply(i).Reply?
    ensures TurnRaises(world, captures, script, i) <==>
            var frame := world.reply(i).frame;
            && frame.success && frame.data.Some? && frame.data.value.invalid.None?
            && frame.data.value.ended != "error" && frame.data.value.ready
            && exists k :: 0 <= k < |captures| && captures[k].after == script[i].id
                           && (world.read(k).ReadRaised? || world.read(k).ReadCancelled?)
                           && forall j :: 0 <= j < k && captures[j].after == script[i].id ==>
                                world.read(j).ReadBytes? || world.read(j).ReadMissing?
  {
    var id := script[i].id;
    if ReadsRaise(world, IndicesAfter(captures, id, |captures|)) {
      var k := RaisingRead(world, captures, id);
    }
    if k :| 0 <= k < |captures| && captures[k].after == id && !Attempted(world.read(k))
            && forall j :: 0 <= j < k && captures[j].after == id ==> ReadClean(world.read(j)) {
      RaisingReadRaises(world, captures, id, k);
    }
  }

  /** Capture `k` is due, its read raises, and those due before it are clean. */
  ghost predicate RaisesAt(world: World, captures: seq<PlanCapture>, id: string, k: nat) {
    && k < |captures| && captures[k].after == id && !Attempted(world.read(k))
    && forall j :: 0 <= j < k && captures[j].after == id ==> ReadClean(world.read(j))
  }

  lemma {:induction false} RaisingRead(world: World, captures: seq<PlanCapture>, id: string) returns (k: nat)
    requires ReadsRaise(world, IndicesAfter(captures, id, |captures|))
    ensures RaisesAt(world, captures, id, k)
  {
    var due := IndicesAfter(captures, id, |captures|);
    var clean := CleanReads(world, due, |due|);
    IndicesAreInRange(captures, id, |captures|);
    FirstUnclean(world, due, |due|);
    k := due[clean];
    forall j | 0 <= j < k && captures[j].after == id
      ensures ReadClean(world.read(j))
    {
      var l :| 0 <= l < |due| && due[l] == j;
      assert l < clean;
    }
  }

  lemma {:induction false} RaisingReadRaises(world: World, captures: seq<PlanCapture>, id: string, k: nat)
    requires RaisesAt(world, captures, id, k)
    ensures ReadsRaise(world, IndicesAfter(captures, id, |captures|))
  {
    var due := IndicesAfter(captures, id, |captures|);
    var clean := CleanReads(world, due, |due|);
    IndicesAreInRange(captures, id, |captures|);
    FirstUnclean(world, due, |due|);
    var l :| 0 <= l < |due| && due[l] == k;
    assert clean <= l && captures[due[clean]].after == id;
  }

  lemma {:induction false} FirstUnclean(world: World, due: seq<nat>, n: nat)
    requires n <= |due|
    ensures forall k :: 0 <= k < CleanReads(world, due, n) ==> ReadClean(world.read(due[k]))
  {
    if n > 0 {
      FirstUnclean(world, due, n - 1);
    }
  }

  // ---------- The sessions and settings reported ----------

  /** A reported session id is remembered once, and an empty one not at all. */
  function Noted(ids: seq<string>, id: string): seq<string> {
    if id != "" && id !in ids then ids + [id] else ids
  }

  function SessionAt(world: World, i: nat): string {
    if world.reply(i).Reply? then DataOf(world.reply(i).frame).sessionId else ""
  }

  predicate Initialized(world: World) {
    world.init.InitReply? && world.init.success
  }

  /** The session ids known after `n` delivered messages, in order of appearance. */
  function SessionsOf(world: World, n: nat): seq<string> {
    if n == 0 then Noted([], if Initialized(world) then world.init.sessionId else "")
    else Noted(SessionsOf(world, n - 1), SessionAt(world, n - 1))
  }

  /** Remembered are the session ids, other than the empty one, that the driver reported as
      it was initialized or in one of its settles, each once. */
  lemma {:induction false} SessionIff(world: World, n: nat, id: string)
    ensures id in SessionsOf(world, n) <==>
            && id != ""
            && (|| (world.init.InitReply? && world.init.success && world.init.sessionId == id)
                || exists i :: 0 <= i < n && world.reply(i).Reply? && world.reply(i).frame.data.Some?
                               && world.reply(i).frame.data.value.sessionId == id)
    ensures forall k, l :: 0 <= k < l < |SessionsOf(world, n)| ==> SessionsOf(world, n)[k] != SessionsOf(world, n)[l]
  {
    if n > 0 {
      SessionIff(world, n - 1, id);
    }
  }

  /** The policy as the driver reported it. */
  function SettingsOf(world: World): map<string, Setting> {
    if Initialized(world) && world.init.policy.Some? then world.init.policy.value else map[]
  }

  lemma {:induction false} SessionsAreNamed(world: World, n: nat)
    ensures forall k :: 0 <= k < |SessionsOf(world, n)| ==> SessionsOf(world, n)[k] != ""
    ensures Initialized(world) && world.init.sessionId != "" ==> SessionsOf(world, n) != []
  {
    if n > 0 {
      SessionsAreNamed(world, n - 1);
    }
  }

  // ---------- The evidence collected so far ----------

  predicate RecordsReply(world: World, id: string, i: nat, message: MessageRecord) {
    world.reply(i).Reply? && message == RecordOf(world, id, i)
  }

  predicate RecordsDelivery(world: World, script: seq<PlanTurn>, messages: seq<MessageRecord>) {
    && |messages| <= |script|
    && (forall i {:trigger world.reply(i)} :: 0 <= i < |messages| ==> world.reply(i).Reply?)
    && (forall i {:trigger messages[i]} :: 0 <= i < |messages| ==> RecordsReply(world, script[i].id, i, messages[i]))
  }

  predicate RecordsRead(world: World, declared: seq<PlanCapture>, index: nat, capture: CaptureRecord) {
    && index < |declared| && Attempted(world.read(index))
    && capture == CaptureOf(declared[index], index, world.read(index))
  }

  /** The capture records are those of the first scheduled captures. */
  predicate RecordsCaptures(world: World, declared: seq<PlanCapture>, schedule: seq<nat>,
                            captures: seq<CaptureRecord>) {
    && |captures| <= |schedule|
    && forall k {:trigger captures[k]} :: 0 <= k < |captures| ==> RecordsRead(world, declared, schedule[k], captures[k])
  }

  function Prompts(script: seq<PlanTurn>, n: nat): (effects: seq<Effect>)
    requires n <= |script|
    ensures |effects| == n
  {
    if n == 0 then [] else Prompts(script, n - 1) + [Prompted(script[n - 1].id)]
  }

  lemma {:induction false} IndicesAreInRange(captures: seq<PlanCapture>, id: string, n: nat)
    requires n <= |captures|
    ensures forall k :: 0 <= k < |IndicesAfter(captures, id, n)| ==>
                          IndicesAfter(captures, id, n)[k] < n && captures[IndicesAfter(captures, id, n)[k]].after == id
    ensures forall index :: 0 <= index < n && captures[index].after == id ==> index in IndicesAfter(captures, id, n)
    ensures forall k, l :: 0 <= k < l < |IndicesAfter(captures, id, n)| ==>
                             IndicesAfter(captures, id, n)[k] < IndicesAfter(captures, id, n)[l]
  {
    if n > 0 {
      IndicesAreInRange(captures, id, n - 1);
    }
  }

  /** Position `k` of the schedule: which turn it follows. */
  ghost predicate FollowsTurn(captures: seq<PlanCapture>, script: seq<PlanTurn>, index: nat, turn: nat) {
    index < |captures| && turn < |script| && captures[index].after == script[turn].id
  }

  lemma {:induction false} IndexAfterIff(captures: seq<PlanCapture>, id: string, n: nat, index: nat)
    requires n <= |captures|
    ensures index in IndicesAfter(captures, id, n) <==> index < n && captures[index].after == id
  {
    if n > 0 {
      IndexAfterIff(captures, id, n - 1, index);
    }
  }

  lemma {:induction false} IndicesIncrease(captures: seq<PlanCapture>, id: string, n: nat, k: nat, l: nat)
    requires n <= |captures| && k < l < |IndicesAfter(captures, id, n)|
    ensures IndicesAfter(captures, id, n)[k] < IndicesAfter(captures, id, n)[l] < n
  {
    var before := IndicesAfter(captures, id, n - 1);
    if l < |before| {
      IndicesIncrease(captures, id, n - 1, k, l);
    } else {
      IndexAfterIff(captures, id, n - 1, before[k]);
    }
  }

  /** A capture declared after one of the first `n` turns. */
  ghost predicate DueWithin(captures: seq<PlanCapture>, script: seq<PlanTurn>, n: nat, index: nat) {
    exists turn :: 0 <= turn < n && FollowsTurn(captures, script, index, turn)
  }

  /** What is due after `n - 1` turns and what is due after the next. */
  lemma {:induction false} DueGrows(captures: seq<PlanCapture>, script: seq<PlanTurn>, n: nat, index: nat,
                                    earlier: seq<nat>, latest: seq<nat>)
    requires 0 < n <= |script|
    requires index in earlier <==> DueWithin(captures, script, n - 1, index)
    requires index in latest <==> index < |captures| && captures[index].after == script[n - 1].id
    ensures index in earlier + latest <==> DueWithin(captures, script, n, index)
  {
    assert FollowsTurn(captures, script, index, n - 1) <==> index in latest;
  }

  lemma {:induction false} ScheduleIff(captures: seq<PlanCapture>, script: seq<PlanTurn>, n: nat, index: nat)
    requires n <= |script|
    ensures index in Schedule(captures, script, n) <==> DueWithin(captures, script, n, index)
  {
    if n > 0 {
      ScheduleIff(captures, script, n - 1, index);
      IndexAfterIff(captures, script[n - 1].id, |captures|, index);
      DueGrows(captures, script, n, index, Schedule(captures, script, n - 1),
               IndicesAfter(captures, script[n - 1].id, |captures|));
    }
  }

  /** In a schedule, what follows an earlier turn comes earlier, and what follows the same
      turn is in the order of declaration. */
  ghost predicate InOrder(captures: seq<PlanCapture>, script: seq<PlanTurn>, due: seq<nat>, k: nat, l: nat, t: nat,
                          u: nat) {
    && k < l < |due| && FollowsTurn(captures, script, due[k], t) && FollowsTurn(captures, script, due[l], u) ==>
      t < u || (t == u && due[k] < due[l])
  }

  /** No turn id is used twice. */
  ghost predicate AllDiffer(script: seq<PlanTurn>) {
    forall i, j :: 0 <= i < j < |script| ==> script[i].id != script[j].id
  }

  lemma {:induction false} OrderGrows(captures: seq<PlanCapture>, script: seq<PlanTurn>, n: nat, earlier: seq<nat>,
                                      latest: seq<nat>, k: nat, l: nat, t: nat, u: nat)
    requires 0 < n <= |script| && AllDiffer(script)
    requires InOrder(captures, script, earlier, k, l, t, u)
    requires k < |earlier| ==> DueWithin(captures, script, n - 1, earlier[k])
    requires forall m :: 0 <= m < |latest| ==> FollowsTurn(captures, script, latest[m], n - 1)
    requires forall m, o :: 0 <= m < o < |latest| ==> latest[m] < latest[o]
    ensures InOrder(captures, script, earlier + latest, k, l, t, u)
  {
    if l >= |earlier| && l < |earlier + latest| && FollowsTurn(captures, script, (earlier + latest)[l], u) {
      assert FollowsTurn(captures, script, latest[l - |earlier|], n - 1) && u == n - 1;
      if k >= |earlier| && k < l {
        assert FollowsTurn(captures, script, latest[k - |earlier|], n - 1);
      }
    }
  }

  lemma {:induction false} ScheduledIsDue(captures: seq<PlanCapture>, script: seq<PlanTurn>, n: nat, k: nat)
    requires n <= |script|
    ensures k < |Schedule(captures, script, n)| ==> DueWithin(captures, script, n, Schedule(captures, script, n)[k])
  {
    if k < |Schedule(captures, script, n)| {
      ScheduleIff(captures, script, n, Schedule(captures, script, n)[k]);
    }
  }

  lemma {:induction false} ScheduleOrder(captures: seq<PlanCapture>, script: seq<PlanTurn>, n: nat, k: nat, l: nat,
                                         t: nat, u: nat)
    requires n <= |script| && AllDiffer(script)
    ensures InOrder(captures, script, Schedule(captures, script, n), k, l, t, u)
  {
    if n > 0 {
      var earlier, latest := Schedule(captures, script, n - 1), IndicesAfter(captures, script[n - 1].id, |captures|);
      ScheduleOrder(captures, script, n - 1, k, l, t, u);
      ScheduledIsDue(captures, script, n - 1, k);
      LatestFollow(captures, script, n - 1, latest);
      OrderGrows(captures, script, n, earlier, latest, k, l, t, u);
    }
  }

  lemma {:induction false} LatestFollow(captures: seq<PlanCapture>, script: seq<PlanTurn>, turn: nat, due: seq<nat>)
    requires turn < |script| && due == IndicesAfter(captures, script[turn].id, |captures|)
    ensures forall m :: 0 <= m < |due| ==> FollowsTurn(captures, script, due[m], turn)
    ensures forall m, o :: 0 <= m < o < |due| ==> due[m] < due[o]
  {
    forall m | 0 <= m < |due|
      ensures FollowsTurn(captures, script, due[m], turn)
    {
      IndexAfterIff(captures, script[turn].id, |captures|, due[m]);
    }
    forall m, o | 0 <= m < o < |due|
      ensures due[m] < due[o]
    {
      IndicesIncrease(captures, script[turn].id, |captures|, m, o);
    }
  }

  /** The schedule holds exactly the captures declared after a delivered turn, each
      once, ordered by delivery and then by declaration. */
  lemma {:induction false} ScheduleIsExact(captures: seq<PlanCapture>, script: seq<PlanTurn>, n: nat)
    requires n <= |script| && AllDiffer(script)
    ensures forall index: nat :: index in Schedule(captures, script, n) <==> DueWithin(captures, script, n, index)
    ensures forall k: nat, l: nat, t: nat, u: nat ::
              InOrder(captures, script, Schedule(captures, script, n), k, l, t, u)
  {
    forall index: nat
      ensures index in Schedule(captures, script, n) <==> DueWithin(captures, script, n, index)
    {
      ScheduleIff(captures, script, n, index);
    }
    forall k: nat, l: nat, t: nat, u: nat
      ensures InOrder(captures, script, Schedule(captures, script, n), k, l, t, u)
    {
      ScheduleOrder(captures, script, n, k, l, t, u);
    }
  }

  method CapturesAfter(captures: seq<PlanCapture>, id: string) returns (found: seq<nat>)
    ensures found == IndicesAfter(captures, id, |captures|)
  {
    found := [];
    for index := 0 to |captures|
      invariant found == IndicesAfter(captures, id, index)
    {
      if captures[index].after == id {
        found := found + [index];
      }
    }
  }

  method MakeRecord(world: World, id: string, i: nat) returns (record: MessageRecord)
    requires world.reply(i).Reply?
    ensures record == RecordOf(world, id, i)
    ensures var frame := world.reply(i).frame;
            && record.id == id && record.startedAt == world.startedAt(i) && record.finishedAt == world.finishedAt(i)
            && (frame.data.Some? ==>
              var data := frame.data.value;
              && record.loopsStarted == data.loopsStarted && record.loopsCompleted == data.loopsCompleted
              && record.continuationPossible == data.continuationPossible
              && (record.cost.Some? <==> data.cost.Some? && data.cost.value > 0.0)
              && (record.cost.Some? ==> record.cost == data.cost)
              && (record.usage.Some? <==> Normalized(data.usage) != map[])
              && (record.usage.Some? ==> record.usage.value == Normalized(data.usage))
              && record.ended == (if data.ended == "natural" || data.ended == "cap" || data.ended == "timeout"
                                  then data.ended else "error"))
            && (frame.data.None? ==>
              && record.loopsStarted == 0 && record.loopsCompleted == 0 && !record.continuationPossible
              && record.usage.None? && record.cost.None? && record.ended == "error")
  {
    var data := DataOf(world.reply(i).frame);
    var usage := NormalizeUsage(data.usage);
    record := MessageRecord(id, if IsEnding(data.ended) then data.ended else "error",
                            world.startedAt(i), world.finishedAt(i),
                            data.loopsStarted, data.loopsCompleted, data.continuationPossible,
                            usage, NormalizedCost(data.cost));
  }

  lemma {:induction false} ReadIsRecorded(world: World, declared: seq<PlanCapture>, due: seq<nat>,
                                          taken: seq<CaptureRecord>, record: CaptureRecord)
    requires RecordsCaptures(world, declared, due, taken) && |taken| < |due|
    requires RecordsRead(world, declared, due[|taken|], record)
    ensures RecordsCaptures(world, declared, due, taken + [record])
    ensures record.status == Failed <==> !ReadClean(world.read(due[|taken|]))
  {
    var longer := taken + [record];
    forall k | 0 <= k < |longer|
      ensures RecordsRead(world, declared, due[k], longer[k])
    {
      assert k < |taken| ==> longer[k] == taken[k];
    }
  }

  /** Reads the due captures in order until one of them fails. */
  method ReadCaptures(world: World, declared: seq<PlanCapture>, due: seq<nat>)
    returns (exit: Exit, taken: seq<CaptureRecord>, failed: bool)
    requires forall k :: 0 <= k < |due| ==> due[k] < |declared|
    ensures RecordsCaptures(world, declared, due, taken)
    ensures exit.Done? && !failed <==> forall k :: 0 <= k < |due| ==> ReadClean(world.read(due[k]))
    ensures |taken| == TakenReads(world, due)
    ensures failed ==> exit.Done?
    ensures exit.Done? <==> !ReadsRaise(world, due)
  {
    taken, failed := [], false;
    for k := 0 to |due|
      invariant |taken| == k && RecordsCaptures(world, declared, due, taken)
      invariant forall j :: 0 <= j < k ==> ReadClean(world.read(due[j]))
      invariant CleanReads(world, due, k) == k
    {
      var read := world.read(due[k]);
      if !ReadClean(read) {
        CleanReadsSettle(world, due, k, |due|);
      }
      if read.ReadRaised? || read.ReadCancelled? {
        return if read.ReadRaised? then Raised else Cancelled, taken, false;
      }
      var record := CaptureOf(declared[due[k]], due[k], read);
      ReadIsRecorded(world, declared, due, taken, record);
      taken := taken + [record];
      if record.status == Failed {
        return Done, taken, true;
      }
    }
    exit := Done;
  }

  lemma {:induction false} CapturesCleanByIndex(world: World, declared: seq<PlanCapture>, id: string)
    ensures CapturesClean(world, declared, id) <==>
            forall k :: 0 <= k < |IndicesAfter(declared, id, |declared|)| ==>
                          ReadClean(world.read(IndicesAfter(declared, id, |declared|)[k]))
    ensures forall k :: 0 <= k < |IndicesAfter(declared, id, |declared|)| ==>
                          IndicesAfter(declared, id, |declared|)[k] < |declared|
  {
    var due := IndicesAfter(declared, id, |declared|);
    IndicesAreInRange(declared, id, |declared|);
    if CapturesClean(world, declared, id) {
      forall k | 0 <= k < |due|
        ensures ReadClean(world.read(due[k]))
      {
        assert declared[due[k]].after == id;
      }
    }
    if forall k :: 0 <= k < |due| ==> ReadClean(world.read(due[k])) {
      forall index | 0 <= index < |declared| && declared[index].after == id
        ensures ReadClean(world.read(index))
      {
        var k :| 0 <= k < |due| && due[k] == index;
      }
    }
  }

  lemma {:induction false} RecordsAppend(world: World, declared: seq<PlanCapture>, earlier: seq<nat>, later: seq<nat>,
                                         captures: seq<CaptureRecord>, taken: seq<CaptureRecord>)
    requires RecordsCaptures(world, declared, earlier, captures) && (|captures| == |earlier| || taken == [])
    requires RecordsCaptures(world, declared, later, taken)
    ensures RecordsCaptures(world, declared, earlier + later, captures + taken)
  {
    var longer := captures + taken;
    forall k | 0 <= k < |longer|
      ensures RecordsRead(world, declared, (earlier + later)[k], longer[k])
    {
      if k < |captures| {
        assert longer[k] == captures[k] && (earlier + later)[k] == earlier[k];
      } else {
        assert longer[k] == taken[k - |captures|] && (earlier + later)[k] == later[k - |earlier|];
      }
    }
  }

  lemma {:induction false} DeliveryGrows(world: World, script: seq<PlanTurn>, messages: seq<MessageRecord>,
                                         record: MessageRecord)
    requires RecordsDelivery(world, script, messages) && |messages| < |script|
    requires RecordsReply(world, script[|messages|].id, |messages|, record)
    ensures RecordsDelivery(world, script, messages + [record])
  {
    var longer := messages + [record];
    forall i | 0 <= i < |longer|
      ensures RecordsReply(world, script[i].id, i, longer[i])
    {
      assert i < |messages| ==> longer[i] == messages[i];
    }
    forall i | 0 <= i < |longer|
      ensures world.reply(i).Reply?
    {
      assert RecordsReply(world, script[i].id, i, longer[i]);
    }
  }

  function Usages(messages: seq<MessageRecord>): (usages: seq<Option<Counts>>)
    ensures |usages| == |messages|
  {
    seq(|messages|, i requires 0 <= i < |messages| => messages[i].usage)
  }

  function Costs(messages: seq<MessageRecord>): (costs: seq<Option<real>>)
    ensures |costs| == |messages|
  {
    seq(|messages|, i requires 0 <= i < |messages| => messages[i].cost)
  }

  /** Nothing is prompted or published from `start` up to `end`. */
  ghost predicate Quiet(log: seq<Effect>, start: nat, end: nat)
    requires end <= |log|
  {
    forall k :: start <= k < end ==> !log[k].Published? && !log[k].Prompted?
  }

  lemma {:induction false} PromptsOnly(script: seq<PlanTurn>, n: nat)
    requires n <= |script|
    ensures forall k :: 0 <= k < n ==> Prompts(script, n)[k] == Prompted(script[k].id)
  {
    if n > 0 {
      PromptsOnly(script, n - 1);
    }
  }

  lemma {:induction false} PromptsGrow(before: seq<Effect>, script: seq<PlanTurn>, i: nat)
    requires i < |script|
    ensures (before + Prompts(script, i)) + [Prompted(script[i].id)] == before + Prompts(script, i + 1)
  {
  }

  ghost predicate EndsWith(log: seq<Effect>, start: nat, s: Summary) {
    && start + 5 == |log|
    && log[start] == ShutdownAcked && log[start + 1] == CloseConfirmed && log[start + 2] == CleanupDone
    && log[start + 3] == SummaryWritten(s) && log[start + 4] == Published(s)
  }

  /** From `start` on nothing is prompted, and nothing is published unless the trace
      ends with the publication of `summary`. */
  ghost predicate Closed(log: seq<Effect>, start: nat, summary: Option<Summary>) {
    || Quiet(log, start, |log|)
    || (summary.Some? && |log| >= start + 5 && EndsWith(log, |log| - 5, summary.value) && Quiet(log, start, |log| - 5))
  }

  lemma {:induction false} QuietThenClosed(before: seq<Effect>, log: seq<Effect>, start: nat, summary: Option<Summary>)
    requires start <= |before| && before <= log && Quiet(before, start, |before|)
    requires Closed(log, |before|, summary)
    ensures Closed(log, start, summary)
  {
  }

  /** Only a script prefix is prompted, first; and a publication is the last effect,
      right after an acknowledged shutdown, a confirmed close, a finished cleanup
      and the writing of the very summary that it publishes. */
  ghost predicate OrderlyTrace(log: seq<Effect>, script: seq<PlanTurn>, sent: nat, summary: Option<Summary>) {
    && sent <= |script| && sent <= |log|
    && (forall k :: 0 <= k < |log| ==> (log[k].Prompted? <==> k < sent))
    && (forall k :: 0 <= k < sent ==> log[k] == Prompted(script[k].id))
    && (forall k :: 0 <= k < |log| && log[k].Published? ==>
      k == |log| - 1 && k >= sent + 4 && summary.Some? && EndsWith(log, k - 4, summary.value))
  }

  lemma {:induction false} ClosedTraceIsOrderly(log: seq<Effect>, script: seq<PlanTurn>, sent: nat,
                                                summary: Option<Summary>)
    requires sent <= |script| && Prompts(script, sent) <= log && Closed(log, sent, summary)
    ensures OrderlyTrace(log, script, sent, summary)
  {
    PromptsOnly(script, sent);
    forall k | 0 <= k < sent
      ensures log[k] == Prompted(script[k].id)
    {
      assert log[k] == Prompts(script, sent)[k];
    }
  }

  // ---------- The controller ----------

  class Controller {
    const plan: Plan
    const script: seq<PlanTurn>
    const model: string
    const version: string
    const world: World

    var valid: bool
    var ended: string
    var error: Option<string>
    var messages: seq<MessageRecord>
    var captures: seq<CaptureRecord>
    var sessionIds: seq<string>
    var settings: map<string, Setting>
    var log: seq<Effect>
    var written: Option<Summary>  // the evidence's summary file
    var handoff: Handoff

    constructor (plan: Plan, instruction: string, model: string, harnessVersion: Option<string>, world: World)
      ensures this.plan == plan && script == Script(plan, instruction) && this.model == model && this.world == world
      ensures version == if harnessVersion.Some? && harnessVersion.value != "" then harnessVersion.value
                         else CONTROLLED_OMP_VERSION
      ensures valid && ended == "natural" && error.None? && messages == [] && captures == []
      ensures sessionIds == [] && settings == map[] && log == [] && written.None? && handoff.Untouched?
    {
      this.plan, this.model, this.world := plan, model, world;
      script := Script(plan, instruction);
      version := if harnessVersion.Some? && harnessVersion.value != "" then harnessVersion.value
      else CONTROLLED_OMP_VERSION;
      valid, ended, error := true, "natural", None;
      messages, captures, sessionIds, settings, log := [], [], [], map[], [];
      written, handoff := None, Untouched;
    }

    function Declared(): seq<PlanCapture> {
      CapturesOf(plan)
    }

    ghost function Due(n: nat): seq<nat>
      requires n <= |script|
    {
      Schedule(Declared(), script, n)
    }

    /** The records are those of a script prefix and of its first due captures. */
    ghost predicate Evidence()
      reads this
    {
      && RecordsDelivery(world, script, messages)
      && RecordsCaptures(world, Declared(), Due(|messages|), captures)
      && |captures| == CaptureCount(world, Declared(), script, |messages|)
    }

    /** `n` turns delivered and nothing wrong so far. */
    ghost predicate OnCourse(n: nat)
      reads this
    {
      && valid && error.None? && |messages| == n && Evidence()
      && |captures| == |Due(n)|
    }

    method Fail(text: string)
      modifies this`valid, this`ended, this`error
      ensures !valid && ended == "error" && error == Some(text)
    {
      valid, ended, error := false, "error", Some(text);
    }

    /** Takes the captures declared after turn `i`; the first failed one ends the run. */
    method TakeCaptures(i: nat) returns (exit: Exit)
      requires i < |script| && RecordsCaptures(world, Declared(), Due(i), captures) && |captures| == |Due(i)|
      requires valid && error.None?
      modifies this`captures, this`valid, this`ended, this`error
      ensures RecordsCaptures(world, Declared(), Due(i + 1), captures)
      ensures exit.Done? && valid <==> CapturesClean(world, Declared(), script[i].id)
      ensures |captures| == |Due(i)| + TakenReads(world, IndicesAfter(Declared(), script[i].id, |Declared()|))
      ensures exit.Done? <==> !ReadsRaise(world, IndicesAfter(Declared(), script[i].id, |Declared()|))
      ensures valid ==> error.None? && ended == old(ended)
      ensures !valid ==> exit.Done? && ended == "error" && error == Some("capture failed")
    {
      var due := CapturesAfter(Declared(), script[i].id);
      CapturesCleanByIndex(world, Declared(), script[i].id);
      var taken, failed;
      exit, taken, failed := ReadCaptures(world, Declared(), due);
      RecordsAppend(world, Declared(), Due(i), due, captures, taken);
      captures := captures + taken;
      if failed {
        Fail("capture failed");
      }
    }

    /** Turn `i` is recorded and its captures are not taken yet. */
    ghost predicate Recorded(i: nat)
      reads this
    {
      && i < |script| && valid && error.None? && ended == "natural"
      && |messages| == i + 1 && RecordsDelivery(world, script, messages)
      && RecordsCaptures(world, Declared(), Due(i), captures) && |captures| == |Due(i)|
    }

    /** Remembers a reported session id, once. */
    method NoteSession(id: string)
      modifies this`sessionIds
      ensures sessionIds == Noted(old(sessionIds), id)
    {
      if id != "" && id !in sessionIds {
        sessionIds := sessionIds + [id];
      }
    }

    /** Records the settle of prompt `i`. */
    method Record(i: nat)
      requires i < |script| && OnCourse(i) && ended == "natural" && world.reply(i).Reply?
      modifies this`messages
      ensures Recorded(i) && messages == old(messages) + [RecordOf(world, script[i].id, i)]
    {
      var record := MakeRecord(world, script[i].id, i);
      DeliveryGrows(world, script, messages, record);
      messages := messages + [record];
    }

    /** Judges the recorded turn `i`: a fatal settle, its captures, whether to go on. */
    method JudgeTurn(i: nat) returns (exit: Exit, more: bool)
      requires Recorded(i)
      modifies this`captures, this`valid, this`ended, this`error
      ensures RecordsCaptures(world, Declared(), Due(i + 1), captures)
      ensures |captures| == CaptureCount(world, Declared(), script, i + 1)
      ensures more <==>
              var frame := world.reply(i).frame;
              && frame.success && frame.data.Some? && frame.data.value.invalid.None?
              && frame.data.value.ended != "error" && frame.data.value.ready
              && (forall k :: 0 <= k < |Declared()| && Declared()[k].after == script[i].id ==>
                world.read(k).ReadBytes? || world.read(k).ReadMissing?)
              && (frame.data.value.ended == "cap" || frame.data.value.ended == "timeout" ==>
                frame.data.value.continuationPossible)
      ensures more ==> exit.Done? && valid
      ensures exit.Done? && valid <==> TurnClean(world, Declared(), script, i)
      ensures exit.Done? <==> !TurnRaises(world, Declared(), script, i)
      ensures exit.Done? && valid ==> i + 1 < |script| ==> more
      ensures exit.Done? && valid ==> ended == if more then "natural" else EndOf(world, script, i + 1)
      ensures exit.Done? && !valid ==> !more && error == Some(FaultText(world, Declared(), script, i + 1))
      ensures valid || !exit.Done? ==> error.None?
      ensures IsEnding(ended)
    {
      var frame := world.reply(i).frame;
      more := false;
      if Fatal(frame) {
        RecordsAppend(world, Declared(), Due(i), IndicesAfter(Declared(), script[i].id, |Declared()|), captures, []);
        assert captures + [] == captures;
        Fail(FatalText(frame));
        return Done, false;
      }
      exit := TakeCaptures(i);
      if !exit.Done? || !valid {
        return;
      }
      more := MayContinue(DataOf(frame));
      if !more {
        ended := messages[i].ended;
        if i + 1 < |script| {
          valid := false;
          error := Some(ended + " left scheduled messages undelivered");
        }
      }
    }

    /** Sends prompt `i`. */
    method Prompt(i: nat, ghost before: seq<Effect>)
      requires i < |script| && log == before + Prompts(script, i)
      modifies this`log
      ensures log == before + Prompts(script, i + 1)
    {
      PromptsGrow(before, script, i);
      log := log + [Prompted(script[i].id)];
    }

    /** Records the settle of prompt `i` and the session that it names. */
    method Receive(i: nat)
      requires i < |script| && OnCourse(i) && ended == "natural" && world.reply(i).Reply?
      requires sessionIds == SessionsOf(world, i)
      modifies this`messages, this`sessionIds
      ensures Recorded(i) && sessionIds == SessionsOf(world, i + 1)
    {
      Record(i);
      NoteSession(DataOf(world.reply(i).frame).sessionId);
    }

    /** The loop stands before turn `i`, all earlier ones sent and clean. */
    ghost predicate AtTurn(i: nat, before: seq<Effect>)
      reads this
    {
      && i <= |script| && OnCourse(i) && ended == "natural" && Underway(world, Declared(), script, i)
      && sessionIds == SessionsOf(world, i) && log == before + Prompts(script, i)
    }

    /** Delivers turn `i`: sends its prompt, records what came back and judges it. */
    method DeliverTurn(i: nat, ghost before: seq<Effect>) returns (exit: Exit, more: bool)
      requires i < |script| && AtTurn(i, before)
      modifies this`messages, this`captures, this`sessionIds, this`valid, this`ended, this`error, this`log
      ensures Evidence() && IsEnding(ended)
      ensures i <= |messages| <= i + 1 && sessionIds == SessionsOf(world, |messages|)
      ensures log == before + Prompts(script, i + 1)
      ensures |messages| == i + 1 <==> world.reply(i).Reply?
      ensures more ==> exit.Done? && valid
      ensures exit.Done? && valid <==> TurnClean(world, Declared(), script, i)
      ensures exit.Done? <==> world.reply(i).Reply? && !TurnRaises(world, Declared(), script, i)
      ensures exit.Done? && valid ==> OnCourse(i + 1) && (i + 1 < |script| ==> more)
      ensures exit.Done? && valid ==> ended == if more then "natural" else EndOf(world, script, i + 1)
      ensures exit.Done? && !valid ==>
                && !more && |messages| == i + 1 && error == Some(FaultText(world, Declared(), script, i + 1))
      ensures !exit.Done? ==> error.None?
    {
      Prompt(i, before);
      if !world.reply(i).Reply? {
        return if world.reply(i).ReplyFailed? then Raised else Cancelled, false;
      }
      Receive(i);
      exit, more := JudgeTurn(i);
      if exit.Done? && valid {
        CleanTurnTakesAll(world, Declared(), script, i);
      }
    }

    /** How the loop is left before or at turn `last`, with so many prompts sent. */
    ghost predicate Left(exit: Exit, sent: nat, last: nat, before: seq<Effect>)
      reads this
    {
      && Evidence() && IsEnding(ended) && sessionIds == SessionsOf(world, |messages|)
      && last <= |script|
      && Leaves(world, Declared(), script, last, |messages|, sent, exit.Done?, valid)
      && (exit.Done? && valid ==> ended == EndOf(world, script, |messages|))
      && (exit.Done? && !valid ==> error == Some(FaultText(world, Declared(), script, |messages|)))
      && (valid || !exit.Done? ==> error.None?)
      && sent <= |script| && log == before + Prompts(script, sent)
    }

    /** The deadline has passed before turn `i`. */
    method Expire(i: nat, ghost before: seq<Effect>)
      requires i < |script| && AtTurn(i, before) && world.expired(i)
      modifies this`ended
      ensures Left(Done, i, i, before)
    {
      ended := "timeout";
    }

    /** One turn of the loop: `more` says that it goes round again. */
    method Advance(i: nat, ghost before: seq<Effect>)
      returns (exit: Exit, more: bool, ghost sent: nat, ghost last: nat)
      requires i < |script| && AtTurn(i, before)
      modifies this`messages, this`captures, this`sessionIds, this`valid, this`ended, this`error, this`log
      ensures if more then AtTurn(i + 1, before) else Left(exit, sent, last, before)
      ensures !more ==> Underway(world, Declared(), script, last)
    {
      if world.expired(i) {
        Expire(i, before);
        return Done, false, i, i;
      }
      exit, more := DeliverTurn(i, before);
      sent, last := i + 1, if exit.Done? && valid then i + 1 else i;
      TurnDecides(world, Declared(), script, i, |messages|, exit.Done?, valid, more);
    }

    /** A script delivered to its end ends as its last message did. */
    method EndScript(ghost before: seq<Effect>)
      requires script != [] && AtTurn(|script|, before)
      modifies this`ended
      ensures Left(Done, |script|, |script|, before)
    {
      assert RecordsReply(world, script[|messages| - 1].id, |messages| - 1, messages[|messages| - 1]);
      ended := messages[|messages| - 1].ended;
    }

    /** Delivers the script until it ends, a fault occurs or the deadline passes. */
    method DeliverScript() returns (exit: Exit, ghost sent: nat, ghost last: nat)
      requires script != [] && OnCourse(0) && ended == "natural" && InitClean(world)
      requires sessionIds == SessionsOf(world, 0)
      modifies this`messages, this`captures, this`sessionIds, this`valid, this`ended, this`error, this`log
      ensures Left(exit, sent, last, old(log)) && Underway(world, Declared(), script, last)
    {
      var i := 0;
      ghost var before := log;
      while i < |script|
        invariant i <= |script| && AtTurn(i, before)
      {
        var more;
        exit, more, sent, last := Advance(i, before);
        if !more {
          return;
        }
        i := i + 1;
      }
      EndScript(before);
      return Done, i, i;
    }

    /** Initializes the driver; `go` says that prompting may begin. */
    method Initialize() returns (exit: Exit, go: bool)
      requires OnCourse(0) && sessionIds == [] && settings == map[]
      modifies this`sessionIds, this`settings, this`valid, this`ended, this`error
      ensures go <==> InitClean(world)
      ensures go <==>
              world.init.InitReply? && world.init.success && world.init.policy.Some? && world.baseline.Done?
      ensures !go ==> (exit.Done? <==> world.init.InitReply? && !world.init.success)
      ensures go ==> OnCourse(0) && ended == old(ended)
      ensures !go && exit.Done? ==> !valid && ended == "error" && error == Some("init failed")
      ensures !go && !exit.Done? ==> error.None? && ended == old(ended)
      ensures sessionIds == SessionsOf(world, 0) && settings == SettingsOf(world)
      ensures settings == (if world.init.InitReply? && world.init.success && world.init.policy.Some? then
                             world.init.policy.value
                           else map[])
    {
      match world.init
      case InitFailed => return Raised, false;
      case InitCancelled => return Cancelled, false;
      case InitReply(success, sessionId, policy) =>
        if !success {
          Fail("init failed");
          return Done, false;
        }
        NoteSession(sessionId);
        if policy.None? {
          return Raised, false;
        }
        settings := policy.value;
        return world.baseline, world.baseline.Done?;
    }

    /** Initializes the driver, then delivers the script. */
    method Deliver() returns (exit: Exit, ghost sent: nat)
      requires script != [] && OnCourse(0) && ended == "natural" && sessionIds == [] && settings == map[] && log == []
      modifies this
      ensures written == old(written) && handoff == old(handoff)
      ensures Evidence() && IsEnding(ended)
      ensures exit.Done? && valid <==> CleanDelivery(world, Declared(), script, |messages|)
      ensures exit.Done? && valid ==> ended == EndOf(world, script, |messages|)
      ensures exit.Done? && !valid ==>
                error == Some(if |messages| == 0 then "init failed"
                              else FaultText(world, Declared(), script, |messages|))
      ensures valid || !exit.Done? ==> error.None?
      ensures StopsAt(world, Declared(), script, |messages|, sent) && log == Prompts(script, sent)
      ensures exit.Done? <==> !Interrupted(world, Declared(), script, |messages|, sent)
      ensures sessionIds == SessionsOf(world, |messages|) && settings == SettingsOf(world)
    {
      var go;
      exit, go := Initialize();
      sent := 0;
      if go {
        ghost var last;
        exit, sent, last := DeliverScript();
        LeavingStops(world, Declared(), script, last, |messages|, sent, exit.Done?, valid);
      }
    }

    /** What a written summary repeats of the collected evidence. */
    ghost predicate Repeats(s: Summary)
      reads this
    {
      && s.schema == EXECUTION_SCHEMA && s.harness == "omp" && s.harnessVersion == version && s.model == model
      && s.mode == (if plan.Single? then "single" else "retained") && s.limits == plan.limits
      && s.sessionIds == sessionIds && s.messages == messages && s.captures == captures && s.settings == settings
      && s.usage == CompleteTotals(Usages(messages)) && s.cost == CompleteCost(Costs(messages))
      && s.handoff == map["verifier" := "verifier/yacht-execution"]
    }

    /** The summary of what was collected, with this verdict. */
    method Summarize(fine: bool, why: Option<string>, end: string) returns (s: Summary)
      ensures Repeats(s) && s.valid == fine && s.ended == end
      ensures s.error == if why.Some? then why else if !fine then Some("invalid") else None
    {
      var usage := TotalUsage(Usages(messages));
      var cost := TotalCost(Costs(messages));
      var told := if why.Some? then why else if !fine then Some("invalid") else None;
      s := Summary(EXECUTION_SCHEMA, if plan.Single? then "single" else "retained", plan.limits, sessionIds,
                   messages, captures, fine, model, "omp", version, settings, usage, cost, end,
                   map["verifier" := "verifier/yacht-execution"], told);
    }

    /** Copies the artifacts of the captures, until one cannot be copied. */
    method CopyArtifacts(s: Summary, limit: nat) returns (artifacts: seq<string>)
      requires limit <= |s.captures|
      ensures artifacts == ArtifactsOf(s.captures, world.kept, limit)
    {
      artifacts := [];
      for i := 0 to limit
        invariant artifacts == ArtifactsOf(s.captures, world.kept, i)
      {
        var artifact := s.captures[i].artifact;
        if artifact.None? || artifact.value == "" {
          continue;
        }
        if world.kept(artifact.value) {
          artifacts := artifacts + [artifact.value];
        }
      }
    }

    /** Replaces the hand-off step by step; a step that fails leaves it as it then is. */
    method Publish(store: Store, s: Summary) returns (exit: Exit)
      requires !store.WriteFails?
      modifies this`handoff, this`log
      ensures exit == if store.Stored? then Done else Raised
      ensures handoff == AfterPublish(store, s, world.kept, old(handoff))
      ensures store.Stored? ==>
                && handoff.Holds? && handoff.summary == s
                && handoff.manifest == Some(Manifest(s.valid, s.ended, s.captures))
      ensures log == if store.Stored? then old(log) + [Published(s)] else old(log)
    {
      if store.ResetFails? {
        return Raised;
      }
      handoff := Emptied;
      if store.CopyFails? {
        return Raised;
      }
      handoff := Holds(s, None, []);
      if store.ManifestFails? {
        return Raised;
      }
      handoff := Holds(s, Some(Manifest(s.valid, s.ended, s.captures)), []);
      var limit := if store.ArtifactsFail? && store.reached < |s.captures| then store.reached else |s.captures|;
      var artifacts := CopyArtifacts(s, limit);
      handoff := handoff.(artifacts := artifacts);
      if store.ArtifactsFail? {
        return Raised;
      }
      log := log + [Published(s)];
      exit := Done;
    }

    /** What a closing that got so far writes, from the controller's verdict. */
    ghost predicate Tells(s: Summary, fine: bool, end: string, why: Option<string>, closing: Closing)
      reads this
    {
      && Repeats(s) && IsEnding(s.ended)
      && (s.valid <==> fine && closing.close.Done? && closing.cleanup.Done?)
      && (s.valid ==> s.ended == end)
      && s.error ==
         if why.Some? then why
         else if !closing.close.Done? then Some("transport close unconfirmed")
         else if !closing.cleanup.Done? then Some("quiescence failed")
         else None
    }

    /** Closes the transport and then cleans up; returns the verdict as it then is. */
    method CloseTransport(closing: Closing)
      returns (cancelled: bool, fine: bool, why: Option<string>, end: string)
      requires valid <==> error.None?
      modifies this`log
      ensures cancelled <==> closing.close.Cancelled? || (closing.close.Done? && closing.cleanup.Cancelled?)
      ensures !cancelled ==>
                && (fine <==> valid && closing.close.Done? && closing.cleanup.Done?)
                && (fine <==> why.None?) && (end == ended || (!fine && end == "error"))
                && why == if error.Some? then error
                          else if !closing.close.Done? then Some("transport close unconfirmed")
                          else if !closing.cleanup.Done? then Some("quiescence failed")
                          else None
      ensures closing.close.Done? && closing.cleanup.Done? ==> log == old(log) + [CloseConfirmed, CleanupDone]
      ensures old(log) <= log && Quiet(log, |old(log)|, |log|)
    {
      cancelled, fine, why, end := closing.close.Cancelled?, valid, error, ended;
      if cancelled {
        return;
      }
      if !closing.close.Done? {
        fine, end := false, "error";
        why := if why.Some? then why else Some("transport close unconfirmed");
        return;
      }
      log := log + [CloseConfirmed];
      if closing.cleanup.Done? {
        log := log + [CleanupDone];
      } else {
        cancelled, fine, end := closing.cleanup.Cancelled?, false, "error";
        why := if why.Some? then why else Some("quiescence failed");
      }
    }

    /** Writes the summary, and replaces the hand-off if it may. */
    method StoreSummary(store: Store, s: Summary, publish: bool) returns (exit: Exit)
      modifies this`log, this`written, this`handoff
      ensures exit == if store.WriteFails? || (publish && !store.Stored?) then Raised else Done
      ensures written == if store.WriteFails? then old(written) else Some(s)
      ensures handoff == if publish then AfterPublish(store, s, world.kept, old(handoff)) else old(handoff)
      ensures publish && store.Stored? ==> log == old(log) + [SummaryWritten(s), Published(s)]
      ensures old(log) <= log && (!(publish && store.Stored?) ==> Quiet(log, |old(log)|, |log|))
    {
      if store.WriteFails? {
        return Raised;
      }
      written := Some(s);
      log := log + [SummaryWritten(s)];
      exit := Done;
      if publish {
        exit := Publish(store, s);
      }
    }

    /** Closes the transport, cleans up, then writes and perhaps publishes the summary. */
    method WriteSummaryAfterClose(closing: Closing, disposed: bool) returns (exit: Exit)
      requires (valid <==> error.None?) && error != Some("") && IsEnding(ended)
      modifies this`log, this`written, this`handoff
      ensures exit.Cancelled? <==> closing.close.Cancelled? || (closing.close.Done? && closing.cleanup.Cancelled?)
      ensures exit.Done? <==>
              && !exit.Cancelled? && !closing.store.WriteFails?
              && (disposed && Attempts(closing.(shutdown := Done)) ==> closing.store.Stored?)
      ensures if exit.Cancelled? || closing.store.WriteFails? then written == old(written)
              else written.Some? && Tells(written.value, valid, ended, error, closing)
      ensures disposed && Attempts(closing.(shutdown := Done)) ==>
                && written.Some? && handoff == AfterPublish(closing.store, written.value, world.kept, old(handoff))
                && (closing.store.Stored? ==>
                  log == old(log) + [CloseConfirmed, CleanupDone] +
                         [SummaryWritten(written.value), Published(written.value)])
      ensures !(disposed && Attempts(closing.(shutdown := Done))) ==> handoff == old(handoff)
      ensures old(log) <= log
      ensures !(disposed && CleanClosing(closing.(shutdown := Done))) ==> Quiet(log, |old(log)|, |log|)
    {
      var cancelled, fine, why, end := CloseTransport(closing);
      if cancelled {
        return Cancelled;
      }
      var s := Summarize(fine, why, end);
      exit := StoreSummary(closing.store, s, disposed && closing.close.Done? && closing.cleanup.Done?);
    }

    /** Asks the driver to shut down, then closes and writes the summary. */
    method Finalize(closing: Closing) returns (exit: Exit)
      requires (valid <==> error.None?) && error != Some("") && IsEnding(ended)
      modifies this`valid, this`ended, this`error, this`log, this`written, this`handoff
      ensures !old(valid) ==> !valid && error == old(error)
      ensures (valid <==> error.None?) && error != Some("") && IsEnding(ended)
      ensures exit.Done? <==> ClosingReturns(closing)
      ensures if Writes(closing) then
                && written.Some? && Repeats(written.value) && IsEnding(written.value.ended)
                && (written.value.valid <==> old(valid) && Attempts(closing))
                && (written.value.valid ==> written.value.ended == old(ended))
                && written.value.error == if old(error).Some? then old(error) else ClosingFault(closing)
              else written == old(written)
      ensures handoff == AfterClosing(closing, written, world.kept, old(handoff))
      ensures old(log) <= log
      ensures if CleanClosing(closing) then EndsWith(log, |old(log)|, written.value) else Quiet(log, |old(log)|, |log|)
    {
      if closing.shutdown.Cancelled? {
        return Cancelled;
      }
      if closing.shutdown.Done? {
        log := log + [ShutdownAcked];
      } else {
        valid, ended := false, "error";
        error := if error.Some? then error else Some("shutdown failed");
      }
      exit := WriteSummaryAfterClose(closing, closing.shutdown.Done?);
    }

    /** The exception handlers: mark the run failed and close down all the same. */
    method CloseAfterFault(cause: Exit, closing: Closing)
      requires !cause.Done? && IsEnding(ended) && error != Some("")
      modifies this`valid, this`ended, this`error, this`log, this`written, this`handoff
      ensures if Writes(closing) then
                && written.Some? && Repeats(written.value) && IsEnding(written.value.ended)
                && !written.value.valid && written.value.error.Some? && written.value.error != Some("")
              else written == old(written)
      ensures handoff == AfterClosing(closing, written, world.kept, old(handoff))
      ensures old(log) <= log && Closed(log, |old(log)|, written)
    {
      if cause.Cancelled? {
        Fail("cancelled");
      } else {
        Fail(if error.Some? then error.value else "controller failure");
      }
      var exit := Finalize(closing);
    }

    /** Closes down once more, after a closing that raised and logged from `start` on. */
    method CloseAgain(cause: Exit, ghost start: nat)
      requires !cause.Done? && IsEnding(ended) && error != Some("")
      requires start <= |log| && Quiet(log, start, |log|)
      modifies this`valid, this`ended, this`error, this`log, this`written, this`handoff
      ensures if Writes(world.second) then
                && written.Some? && Repeats(written.value) && IsEnding(written.value.ended)
                && !written.value.valid && written.value.error.Some? && written.value.error != Some("")
              else written == old(written)
      ensures handoff == AfterClosing(world.second, written, world.kept, old(handoff))
      ensures old(log) <= log && Closed(log, start, written)
    {
      ghost var before := log;
      CloseAfterFault(cause, world.second);
      QuietThenClosed(before, log, start, written);
    }

    /** Closes down after a delivery that came to its end, and once more if that raises. */
    method CloseDelivered() returns (returned: bool)
      requires IsEnding(ended) && error != Some("") && written.None? && handoff.Untouched?
      requires valid <==> error.None?
      modifies this`valid, this`ended, this`error, this`log, this`written, this`handoff
      ensures written.Some? ==>
                && Repeats(written.value) && IsEnding(written.value.ended)
                && (written.value.valid <==> written.value.error.None?) && written.value.error != Some("")
                && (written.value.valid <==>
                  && old(valid) && Attempts(world.first)
                  && (world.first.store.Stored? || !Writes(world.second)))
                && (written.value.valid ==> written.value.ended == old(ended))
      ensures returned ==>
                && written.Some?
                && written.value.error == if old(error).Some? then old(error) else ClosingFault(world.first)
      ensures returned <==> ClosingReturns(world.first)
      ensures written.Some? <==> Writes(world.first) || Writes(world.second)
      ensures handoff.Holds? && handoff.summary.valid <==>
              old(valid) && (CleanClosing(world.first) || LeavesStale(world))
      ensures handoff.Holds? && (returned || !LeavesStale(world)) ==> written == Some(handoff.summary)
      ensures Coherent(handoff, world.kept)
      ensures returned && handoff.Holds? ==> handoff == WholeHandoff(handoff.summary, world.kept)
      ensures old(log) <= log && Closed(log, |old(log)|, written)
    {
      var exit := Finalize(world.first);
      returned := exit.Done?;
      ghost var first, between := written, handoff;
      FirstHandoff(world, first, between);
      if !returned {
        CloseAgain(exit, |old(log)|);
        SecondHandoff(world, first, between, written, handoff);
      }
    }

    /** Closes down after a delivery; on an exception or a cancellation, of the
        delivery or of the closing itself, it closes down once more and raises. */
    method CloseDown(delivery: Exit) returns (returned: bool)
      requires IsEnding(ended) && error != Some("") && written.None? && handoff.Untouched?
      requires if delivery.Done? then valid <==> error.None? else error.None?
      modifies this`valid, this`ended, this`error, this`log, this`written, this`handoff
      ensures written.Some? ==>
                && Repeats(written.value) && IsEnding(written.value.ended)
                && (written.value.valid <==> written.value.error.None?) && written.value.error != Some("")
                && (written.value.valid <==>
                  && delivery.Done? && old(valid) && Attempts(world.first)
                  && (world.first.store.Stored? || !Writes(world.second)))
                && (written.value.valid ==> written.value.ended == old(ended))
      ensures returned ==>
                && delivery.Done? && written.Some?
                && written.value.error == if old(error).Some? then old(error) else ClosingFault(world.first)
      ensures returned <==> delivery.Done? && ClosingReturns(world.first)
      ensures written.Some? <==> Writes(world.first) || (delivery.Done? && Writes(world.second))
      ensures handoff.Holds? && handoff.summary.valid <==>
              delivery.Done? && old(valid) && (CleanClosing(world.first) || LeavesStale(world))
      ensures handoff.Holds? && (returned || !LeavesStale(world)) ==> written == Some(handoff.summary)
      ensures Coherent(handoff, world.kept)
      ensures returned && handoff.Holds? ==> handoff == WholeHandoff(handoff.summary, world.kept)
      ensures old(log) <= log && Closed(log, |old(log)|, written)
    {
      if delivery.Done? {
        returned := CloseDelivered();
      } else {
        CloseAfterFault(delivery, world.first);
        FirstHandoff(world, written, handoff);
        returned := false;
      }
    }

    /** The whole run. */
    method Run() returns (returned: bool, ghost sent: nat)
      requires script != [] && OnCourse(0) && ended == "natural" && sessionIds == [] && settings == map[] && log == []
      requires written.None? && handoff.Untouched?
      modifies this
      ensures Evidence() && (written.Some? ==> Repeats(written.value) && IsEnding(written.value.ended))
      ensures StopsAt(world, Declared(), script, |messages|, sent)
      ensures returned <==> !Interrupted(world, Declared(), script, |messages|, sent) && ClosingReturns(world.first)
      ensures written.Some? <==>
              || Writes(world.first)
              || (!Interrupted(world, Declared(), script, |messages|, sent) && Writes(world.second))
      ensures returned ==>
                written.Some? && written.value.error == Blame(world, Declared(), script, |messages|, world.first)
      ensures written.Some? ==>
                && (written.value.valid <==> written.value.error.None?) && written.value.error != Some("")
                && (written.value.valid <==>
                  && CleanDelivery(world, Declared(), script, |messages|) && Attempts(world.first)
                  && (world.first.store.Stored? || !Writes(world.second)))
      ensures written.Some? && written.value.valid ==>
                |captures| == |Due(|messages|)| && written.value.ended == EndOf(world, script, |messages|)
      ensures handoff.Holds? && handoff.summary.valid <==>
              && CleanDelivery(world, Declared(), script, |messages|)
              && (CleanClosing(world.first) || LeavesStale(world))
      ensures handoff.Holds? && (returned || !LeavesStale(world)) ==> written == Some(handoff.summary)
      ensures Coherent(handoff, world.kept)
      ensures returned && handoff.Holds? ==> handoff == WholeHandoff(handoff.summary, world.kept)
      ensures Prompts(script, sent) <= log && Closed(log, sent, written)
      ensures sessionIds == SessionsOf(world, |messages|) && settings == SettingsOf(world)
    {
      var exit;
      exit, sent := Deliver();
      if exit.Done? && valid && |messages| > 0 {
        CleanTurnTakesAll(world, Declared(), script, |messages| - 1);
      }
      returned := CloseDown(exit);
    }
  }

  // ---------- The summary meets the shared contract ----------

  /** What the driver's side guarantees: a named session, contract-typed settings,
      loop counts within the budget, and timestamps. */
  ghost predicate GoodDriver(world: World, maxTurns: int) {
    && (world.init.InitReply? && world.init.success ==>
      && world.init.sessionId != ""
      && (world.init.policy.Some? ==> ValidSettings(world.init.policy.value)))
    && (forall i: nat :: world.startedAt(i) != "" && world.finishedAt(i) != "")
    && (forall i: nat :: world.reply(i).Reply? ==>
      var data := DataOf(world.reply(i).frame);
      0 <= data.loopsCompleted <= data.loopsStarted <= maxTurns)
  }

  lemma {:induction false} ScriptIsDistinct(plan: Plan, instruction: string)
    requires ValidPlan(plan)
    ensures forall i :: 0 <= i < |Script(plan, instruction)| ==> IsTurnId(Script(plan, instruction)[i].id)
    ensures forall i, j :: 0 <= i < j < |Script(plan, instruction)| ==>
                             Script(plan, instruction)[i].id != Script(plan, instruction)[j].id
  {
  }

  lemma {:induction false} RecordsAreValid(world: World, script: seq<PlanTurn>, messages: seq<MessageRecord>,
                                           maxTurns: int)
    requires RecordsDelivery(world, script, messages) && GoodDriver(world, maxTurns)
    requires forall i :: 0 <= i < |script| ==> IsTurnId(script[i].id)
    ensures forall i :: 0 <= i < |messages| ==> ValidMessage(messages[i], maxTurns)
  {
    forall i | 0 <= i < |messages|
      ensures ValidMessage(messages[i], maxTurns)
    {
      var raw := DataOf(world.reply(i).frame).usage;
      assert messages[i] == RecordOf(world, script[i].id, i);
      forall key | key in Normalized(raw)
        ensures key != "" && Normalized(raw)[key] >= 0
      {
        NormalizedIsNonNegative(raw, key);
      }
    }
  }

  lemma {:induction false} TotalsAreValid(messages: seq<MessageRecord>, maxTurns: int)
    requires forall i :: 0 <= i < |messages| ==> ValidMessage(messages[i], maxTurns)
    ensures ValidCounts(CompleteTotals(Usages(messages))) && ValidCost(CompleteCost(Costs(messages)))
  {
    var usages := Usages(messages);
    forall key | key in CompleteTotals(usages)
      ensures key != "" && CompleteTotals(usages)[key] >= 0
    {
      TotalsReportIff(usages, key);
      assert Reported(usages[0], key) && ValidMessage(messages[0], maxTurns);
      forall i | 0 <= i < |usages| && Reported(usages[i], key)
        ensures usages[i].value[key] >= 0
      {
        assert ValidMessage(messages[i], maxTurns);
      }
      SumOfNonNegative(usages, key, |usages|);
    }
    forall i | 0 <= i < |messages| && Costs(messages)[i].Some?
      ensures Costs(messages)[i].value >= 0.0
    {
      assert ValidMessage(messages[i], maxTurns);
    }
    CostSumNonNegative(Costs(messages), |messages|);
  }

  /** A capture record passes the contract exactly when it does not stand for a
      failed read without a text. */
  lemma {:induction false} CaptureIsValidIff(initial: string, turns: seq<PlanTurn>, capture: PlanCapture, index: nat,
                                             read: Read)
    requires ValidCapture(initial, turns, capture, index) && Attempted(read)
    ensures WellFormedCapture(CaptureOf(capture, index, read)) <==> read != ReadError("")
  {
    CaptureNameIsCaptureId(capture.after, index);
  }

  lemma {:induction false} ScheduledTurnIsDelivered(captures: seq<PlanCapture>, script: seq<PlanTurn>, n: nat, k: nat)
    requires n <= |script| && k < |Schedule(captures, script, n)|
    ensures Schedule(captures, script, n)[k] < |captures|
    ensures exists i :: 0 <= i < n && script[i].id == captures[Schedule(captures, script, n)[k]].after
  {
    var earlier := Schedule(captures, script, n - 1);
    if k < |earlier| {
      ScheduledTurnIsDelivered(captures, script, n - 1, k);
    } else {
      IndicesAreInRange(captures, script[n - 1].id, |captures|);
    }
  }

  /** The part of a run's summary that the contract reads. */
  ghost predicate SummarizesRun(s: Summary, plan: Plan, script: seq<PlanTurn>, world: World) {
    && s.schema == "yacht.execution.v1" && s.limits == plan.limits
    && (if plan.Single? then s.mode == "single" else s.mode == "retained")
    && s.harness == "omp" && s.harnessVersion != ""
    && s.handoff == map["verifier" := "verifier/yacht-execution"]
    && IsEnding(s.ended) && s.error != Some("")
    && (s.messages != [] ==> InitClean(world))
    && s.sessionIds == SessionsOf(world, |s.messages|) && s.settings == SettingsOf(world)
    && s.usage == CompleteTotals(Usages(s.messages)) && s.cost == CompleteCost(Costs(s.messages))
    && RecordsDelivery(world, script, s.messages)
    && RecordsCaptures(world, CapturesOf(plan), Schedule(CapturesOf(plan), script, |s.messages|), s.captures)
    && |s.captures| == CaptureCount(world, CapturesOf(plan), script, |s.messages|)
  }

  lemma {:induction false} HeaderIsValid(s: Summary, plan: Plan, instruction: string, world: World)
    requires ValidPlan(plan) && s.model != "" && GoodDriver(world, plan.limits.maxTurns)
    requires SummarizesRun(s, plan, Script(plan, instruction), world)
    ensures ValidHeader(s)
    ensures forall i :: 0 <= i < |s.messages| ==> ValidMessage(s.messages[i], s.limits.maxTurns)
  {
    ScriptIsDistinct(plan, instruction);
    RecordsAreValid(world, Script(plan, instruction), s.messages, plan.limits.maxTurns);
    TotalsAreValid(s.messages, plan.limits.maxTurns);
    SessionsAreNamed(world, |s.messages|);
    HandoffIsNamed(s.handoff);
    assert ValidSettings(s.settings);
  }

  lemma {:induction false} HandoffIsNamed(handoff: map<string, string>)
    requires handoff == map["verifier" := "verifier/yacht-execution"]
    ensures handoff != map[] && forall key :: key in handoff ==> key != "" && handoff[key] != ""
  {
    assert handoff["verifier"] == "verifier/yacht-execution" && handoff.Keys == {"verifier"};
  }

  predicate CapturesPass(messages: seq<MessageRecord>, captures: seq<CaptureRecord>) {
    forall k :: 0 <= k < |captures| ==> WellFormedCapture(captures[k]) && Delivered(messages, captures[k].after)
  }

  predicate ReadsHaveText(world: World, schedule: seq<nat>, n: nat)
    requires n <= |schedule|
  {
    forall k :: 0 <= k < n ==> world.read(schedule[k]) != ReadError("")
  }

  lemma {:induction false} RecordedCaptureIsValidIff(plan: Plan, script: seq<PlanTurn>, world: World,
                                                     messages: seq<MessageRecord>, captures: seq<CaptureRecord>,
                                                     k: nat)
    requires forall i :: 0 <= i < |CapturesOf(plan)| ==>
                           ValidCapture(plan.initialTurnId, plan.turns, CapturesOf(plan)[i], i)
    requires RecordsDelivery(world, script, messages) && k < |captures|
    requires RecordsCaptures(world, CapturesOf(plan), Schedule(CapturesOf(plan), script, |messages|), captures)
    ensures WellFormedCapture(captures[k]) <==>
            world.read(Schedule(CapturesOf(plan), script, |messages|)[k]) != ReadError("")
    ensures Delivered(messages, captures[k].after)
  {
    var index := Schedule(CapturesOf(plan), script, |messages|)[k];
    ScheduledTurnIsDelivered(CapturesOf(plan), script, |messages|, k);
    assert RecordsRead(world, CapturesOf(plan), index, captures[k]);
    CaptureIsValidIff(plan.initialTurnId, plan.turns, CapturesOf(plan)[index], index, world.read(index));
    var i :| 0 <= i < |messages| && script[i].id == CapturesOf(plan)[index].after;
    assert messages[i].id == captures[k].after;
  }

  lemma {:induction false} CapturesPassIff(plan: Plan, script: seq<PlanTurn>, world: World,
                                           messages: seq<MessageRecord>, captures: seq<CaptureRecord>)
    requires ValidPlan(plan) && RecordsDelivery(world, script, messages)
    requires RecordsCaptures(world, CapturesOf(plan), Schedule(CapturesOf(plan), script, |messages|), captures)
    ensures CapturesPass(messages, captures) <==>
            ReadsHaveText(world, Schedule(CapturesOf(plan), script, |messages|), |captures|)
  {
    forall k | 0 <= k < |captures|
      ensures WellFormedCapture(captures[k]) <==>
              world.read(Schedule(CapturesOf(plan), script, |messages|)[k]) != ReadError("")
      ensures Delivered(messages, captures[k].after)
    {
      RecordedCaptureIsValidIff(plan, script, world, messages, captures, k);
    }
  }

  /** The summary of a run over a valid plan and a well-behaved driver passes the
      shared contract exactly when no attempted read failed with an empty text. */
  lemma {:induction false} SummaryIsValidIff(s: Summary, plan: Plan, instruction: string, world: World)
    requires ValidPlan(plan) && s.model != "" && GoodDriver(world, plan.limits.maxTurns)
    requires SummarizesRun(s, plan, Script(plan, instruction), world)
    ensures ValidSummary(s) <==>
            ReadsHaveText(world, Schedule(CapturesOf(plan), Script(plan, instruction), |s.messages|), |s.captures|)
  {
    HeaderIsValid(s, plan, instruction, world);
    CapturesPassIff(plan, Script(plan, instruction), world, s.messages, s.captures);
    assert ValidSummary(s) <==> CapturesPass(s.messages, s.captures);
  }

  // ---------- The whole run, from the outside ----------

  /** Runs a plan against a world.  `returned` is false when the run raised; `summary`
      is the one that the evidence then holds, if any, and `handoff` what is found in
      the hand-off directory. */
  method RunControlledOmp(plan: Plan, instruction: string, model: string, harnessVersion: Option<string>, world: World)
    returns (returned: bool, summary: Option<Summary>, handoff: Handoff, log: seq<Effect>, ghost delivered: nat,
             ghost sent: nat)
    ensures !ValidPlan(plan) ==> !returned && summary.None? && handoff.Untouched? && log == []
    ensures returned ==> summary.Some?
    ensures ValidPlan(plan) ==>
              var script, declared := Script(plan, instruction), CapturesOf(plan);
              && StopsAt(world, declared, script, delivered, sent)
              && (returned <==> !Interrupted(world, declared, script, delivered, sent) && ClosingReturns(world.first))
              && (summary.Some? <==>
                || Writes(world.first)
                || (!Interrupted(world, declared, script, delivered, sent) && Writes(world.second)))
              && (handoff.Holds? && handoff.summary.valid <==>
                && CleanDelivery(world, declared, script, delivered)
                && (CleanClosing(world.first) || LeavesStale(world)))
    ensures OrderlyTrace(log, Script(plan, instruction), sent, summary)
    ensures summary.Some? ==>
              var s, script, declared := summary.value, Script(plan, instruction), CapturesOf(plan);
              && SummarizesRun(s, plan, script, world) && s.model == model
              && s.harnessVersion == (if harnessVersion.Some? && harnessVersion.value != "" then harnessVersion.value
                                      else "18.2.6")
              && |s.messages| == delivered
              && (s.valid <==> s.error.None?)
              && (s.valid <==>
                && CleanDelivery(world, declared, script, |s.messages|) && Attempts(world.first)
                && (world.first.store.Stored? || !Writes(world.second)))
              && (s.valid ==>
                && s.ended == EndOf(world, script, |s.messages|)
                && |s.captures| == |Schedule(declared, script, |s.messages|)|)
              && (returned ==> s.error == Blame(world, declared, script, |s.messages|, world.first))
    ensures handoff.Holds? && (returned || !LeavesStale(world)) ==> summary == Some(handoff.summary)
    ensures Coherent(handoff, world.kept)
    ensures returned && handoff.Holds? ==> handoff == WholeHandoff(handoff.summary, world.kept)
  {
    delivered, sent := 0, 0;
    var fault := ValidateExecutionPlan(plan);
    if fault.Some? {
      return false, None, Untouched, [], 0, 0;
    }
    var controller := new Controller(plan, instruction, model, harnessVersion, world);
    returned, sent := controller.Run();
    summary, handoff := controller.written, controller.handoff;
    log, delivered := controller.log, |controller.messages|;
    ClosedTraceIsOrderly(log, controller.script, sent, summary);
  }

  /** Runs a plan and hands the summary to the contract's validator, as the host
      does with the evidence of a trial. */
  method RunThenValidate(plan: Plan, instruction: string, model: string, harnessVersion: Option<string>, world: World)
    returns (summary: Option<Summary>, accepted: bool)
    ensures summary.Some? ==> SummarizesRun(summary.value, plan, Script(plan, instruction), world)
    ensures summary.None? ==> !accepted
    ensures summary.Some? && model != "" && GoodDriver(world, plan.limits.maxTurns) ==>
              (accepted <==>
               ReadsHaveText(world, Schedule(CapturesOf(plan), Script(plan, instruction), |summary.value.messages|),
                             |summary.value.captures|))
  {
    var returned, handoff, log;
    ghost var delivered, sent;
    returned, summary, handoff, log, delivered, sent :=
      RunControlledOmp(plan, instruction, model, harnessVersion, world);
    if summary.None? {
      return None, false;
    }
    accepted := ValidateExecutionSummary(summary.value);
    if model != "" && GoodDriver(world, plan.limits.maxTurns) {
      SummaryIsValidIff(summary.value, plan, instruction, world);
    }
  }

  /** A run in time whose first turn ends in a cap or a timeout that can be continued sends
      the second turn. */
  method ContinuableTurnGoesOn(plan: Plan, instruction: string, model: string, world: World)
    returns (returned: bool, log: seq<Effect>)
    requires plan.Retained? && ValidPlan(plan) && plan.turns != []
    requires world.init.InitReply? && world.init.success && world.init.policy.Some? && world.baseline.Done?
    requires !world.expired(0) && !world.expired(1) && world.reply(0).Reply?
    requires var frame := world.reply(0).frame;
             && frame.success && frame.data.Some? && frame.data.value.invalid.None? && frame.data.value.ready
             && frame.data.value.ended in ["cap", "timeout"] && frame.data.value.continuationPossible
    requires forall k :: 0 <= k < |plan.captures| && plan.captures[k].after == plan.initialTurnId ==>
               world.read(k).ReadBytes? || world.read(k).ReadMissing?
    ensures |log| >= 2 && log[0] == Prompted(plan.initialTurnId) && log[1] == Prompted(plan.turns[0].id)
  {
    var summary, handoff;
    ghost var delivered, sent;
    returned, summary, handoff, log, delivered, sent := RunControlledOmp(plan, instruction, model, None, world);
    var script := Script(plan, instruction);
    assert script[0].id == plan.initialTurnId && script[1] == plan.turns[0];
    TurnIsCleanIff(world, plan.captures, script, 0);
    assert TurnClean(world, plan.captures, script, 0);
  }

  /** A world in which the one prompt is answered in good order, its result is published
      but for the artifacts, and the driver is gone when it is asked to shut down again. */
  function HalfPublished(): World {
    World(InitReply(true, "s", Some(map[])), Done, i => i > 0, i => "t", i => "t",
          i => Reply(Frame(true, Some(SettleData("natural", 1, 1, true, true, None, "", map[], None, "s")))),
          i => ReadMissing, name => true,
          Closing(Done, Done, Done, ArtifactsFail(0)), Closing(Raised, Done, Done, Stored))
  }

  /** A hand-off can therefore claim a valid run that raised, and contradict the evidence. */
  method HandoffContradictsEvidence(plan: Plan, instruction: string, model: string)
    returns (returned: bool, summary: Option<Summary>, handoff: Handoff)
    requires plan.Single? && ValidPlan(plan)
    ensures !returned
    ensures handoff.Holds? && handoff.summary.valid
    ensures summary.Some? && !summary.value.valid
  {
    var world := HalfPublished();
    var script := Script(plan, instruction);
    var log;
    ghost var delivered, sent;
    returned, summary, handoff, log, delivered, sent := RunControlledOmp(plan, instruction, model, None, world);
    assert |script| == 1 && TurnClean(world, [], script, 0);
    StopIsUnique(world, [], script, delivered, sent, 1, 1);
  }

  /** A world in which everything goes well except that every read times out, with an
      error that has no text. */
  function SilentReads(): World {
    World(InitReply(true, "s", Some(map[])), Done, i => false, i => "t", i => "t",
          i => Reply(Frame(true, Some(SettleData("natural", 1, 1, true, true, None, "", map[], None, "s")))),
          i => ReadError(""), name => true,
          Closing(Done, Done, Done, Stored), Closing(Done, Done, Done, Stored))
  }

  /** Captures that are due while no read has an answer: one is recorded. */
  lemma {:induction false} SilentDue(world: World, captures: seq<PlanCapture>, id: string, k: nat)
    requires k < |captures| && captures[k].after == id && forall i: nat :: world.read(i) == ReadError("")
    ensures var due := IndicesAfter(captures, id, |captures|);
            due != [] && TakenReads(world, due) == 1 && !ReadsRaise(world, due) && !CapturesClean(world, captures, id)
  {
    var due := IndicesAfter(captures, id, |captures|);
    IndicesAreInRange(captures, id, |captures|);
    assert k in due && !ReadClean(world.read(k));
    NoneClean(world, due, |due|);
  }

  lemma {:induction false} SilentReadStops(world: World, captures: seq<PlanCapture>, script: seq<PlanTurn>, k: nat)
    requires script != [] && k < |captures| && captures[k].after == script[0].id
    requires InitClean(world) && !world.expired(0) && forall i: nat :: world.read(i) == ReadError("")
    requires world.reply(0).Reply? && !Fatal(world.reply(0).frame)
    ensures StopsAt(world, captures, script, 1, 1) && !Interrupted(world, captures, script, 1, 1)
    ensures CaptureCount(world, captures, script, 1) == 1
    ensures !ReadsHaveText(world, Schedule(captures, script, 1), 1)
  {
    var due := IndicesAfter(captures, script[0].id, |captures|);
    SilentDue(world, captures, script[0].id, k);
    assert Schedule(captures, script, 0) == [] && Schedule(captures, script, 1) == due;
    assert !TurnClean(world, captures, script, 0) && !TurnRaises(world, captures, script, 0);
  }

  lemma {:induction false} SilentSummaryIsInvalid(plan: Plan, instruction: string, world: World, s: Summary, k: nat)
    requires plan.Retained? && ValidPlan(plan) && s.model != "" && world == SilentReads()
    requires k < |plan.captures| && plan.captures[k].after == plan.initialTurnId
    requires SummarizesRun(s, plan, Script(plan, instruction), world) && |s.messages| == 1
    ensures !ValidSummary(s)
  {
    SilentReadStops(world, plan.captures, Script(plan, instruction), k);
    SummaryIsValidIff(s, plan, instruction, world);
  }

  method RunSilently(plan: Plan, instruction: string, model: string, k: nat)
    returns (returned: bool, summary: Option<Summary>)
    requires plan.Retained? && ValidPlan(plan) && model != ""
    requires k < |plan.captures| && plan.captures[k].after == plan.initialTurnId
    ensures returned && summary.Some? && !ValidSummary(summary.value)
  {
    var world, script := SilentReads(), Script(plan, instruction);
    var handoff, log;
    ghost var delivered, sent;
    returned, summary, handoff, log, delivered, sent := RunControlledOmp(plan, instruction, model, None, world);
    SilentReadStops(world, plan.captures, script, k);
    StopIsUnique(world, plan.captures, script, delivered, sent, 1, 1);
    SilentSummaryIsInvalid(plan, instruction, world, summary.value, k);
  }

  /** A run can therefore return normally and leave evidence that the contract refuses. */
  method SilentReadIsRefused(plan: Plan, instruction: string, model: string, k: nat)
    returns (returned: bool, summary: Option<Summary>, accepted: bool)
    requires plan.Retained? && ValidPlan(plan) && model != ""
    requires k < |plan.captures| && plan.captures[k].after == plan.initialTurnId
    ensures returned && summary.Some? && !accepted
  {
    returned, summary := RunSilently(plan, instruction, model, k);
    accepted := ValidateExecutionSummary(summary.value);
  }
}
