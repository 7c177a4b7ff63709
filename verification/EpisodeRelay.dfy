/** Episodic trials: rendering a task's episode plan (courses/episodes.py),
    accepting it again inside the trial (plan_for_task of episodes.py), running
    the relay (run_jsonl_episodes of agents.py), and checking the written record
    (_validate_task_attempt_episodes of contracts/schemas.py). */
module EpisodeRelay {
  import opened Prelude
  import opened Text
  import opened Accounting

  // ---------- Plans ----------

  datatype EpisodePlan = EpisodePlan(
    max: int,
    verifyBetween: bool,
    instructions: seq<string>,
    maxTurns: Option<int>,
    timeoutSeconds: Option<int>)

  /** The [episodes] table of a task, its values already of the declared types. */
  datatype Table = Table(
    max: Option<int>,
    verifyBetween: Option<bool>,
    continueInstruction: Option<string>,
    maxTurns: Option<int>,
    timeoutSeconds: Option<int>)

  const DEFAULT_CONTINUE_INSTRUCTION := "Continue work on the project."

  predicate Positive(value: Option<int>) {
    value.Some? ==> value.value >= 1
  }

  /** What the trial side demands of a plan. */
  predicate AcceptablePlan(plan: EpisodePlan) {
    && plan.max >= 2
    && |plan.instructions| == plan.max - 1
    && (forall i :: 0 <= i < |plan.instructions| ==> NonBlank(plan.instructions[i]))
    && Positive(plan.maxTurns) && Positive(plan.timeoutSeconds)
  }

  method PlanForTask(plan: EpisodePlan) returns (result: Result<EpisodePlan>)
    ensures result.Ok? <==> AcceptablePlan(plan)
    ensures result.Ok? <==>
            && plan.max >= 2 && |plan.instructions| == plan.max - 1
            && (forall i :: 0 <= i < |plan.instructions| ==> NonBlank(plan.instructions[i]))
            && (plan.maxTurns.Some? ==> plan.maxTurns.value >= 1)
            && (plan.timeoutSeconds.Some? ==> plan.timeoutSeconds.value >= 1)
    ensures result.Ok? ==> result.value == plan
  {
    if plan.max < 2 {
      return Err("max must be an integer >= 2");
    }
    if |plan.instructions| != plan.max - 1 {
      return Err("instructions must contain max - 1 entries");
    }
    for i := 0 to |plan.instructions|
      invariant forall k :: 0 <= k < i ==> NonBlank(plan.instructions[k])
    {
      if !NonBlank(plan.instructions[i]) {
        return Err("instructions entries must be non-empty strings");
      }
    }
    if !Positive(plan.maxTurns) || !Positive(plan.timeoutSeconds) {
      return Err("must be an integer >= 1");
    }
    result := Ok(plan);
  }

  /** An entry of the episodes directory; `index` is None when it is not a file named
      by three digits. */
  datatype DeltaFile = DeltaFile(index: Option<nat>, text: string)

  predicate ValidDelta(file: DeltaFile) {
    file.index.Some? && file.index.value >= 2 && NonBlank(file.text)
  }

  method DeltaTexts(files: seq<DeltaFile>) returns (deltas: Result<map<nat, string>>)
    ensures deltas.Ok? <==> forall i :: 0 <= i < |files| ==> ValidDelta(files[i])
    ensures deltas.Ok? <==> forall i :: 0 <= i < |files| ==>
              files[i].index.Some? && files[i].index.value >= 2 && NonBlank(files[i].text)
    ensures deltas.Ok? ==> forall k :: k in deltas.value ==> k >= 2 && NonBlank(deltas.value[k])
    ensures deltas.Ok? ==> forall i :: 0 <= i < |files| ==> files[i].index.value in deltas.value
    ensures deltas.Ok? ==> forall k :: k in deltas.value ==>
                exists i :: 0 <= i < |files| && files[i].index == Some(k) && files[i].text == deltas.value[k]
  {
    var found: map<nat, string> := map[];
    for i := 0 to |files|
      invariant forall j :: 0 <= j < i ==> ValidDelta(files[j])
      invariant forall k :: k in found ==> k >= 2 && NonBlank(found[k])
      invariant forall j :: 0 <= j < i ==> files[j].index.value in found
      invariant forall k :: k in found ==>
                              exists j :: 0 <= j < i && files[j].index == Some(k) && files[j].text == found[k]
    {
      var file := files[i];
      if file.index.None? || file.index.value < 2 || !NonBlank(file.text) {
        return Err("invalid delta file");
      }
      found := found[file.index.value := file.text];
    }
    deltas := Ok(found);
  }

  /** The deltas are exactly 2 .. top for some top within the maximum, or none. */
  predicate Contiguous(deltas: map<nat, string>, maximum: int) {
    && (forall k :: k in deltas ==> k <= maximum)
    && (forall k, j :: k in deltas && 2 <= j < k ==> j in deltas)
  }

  method Largest(keys: set<nat>) returns (top: nat)
    requires keys != {}
    ensures top in keys && forall k :: k in keys ==> k <= top
  {
    top :| top in keys;
    var pending := keys - {top};
    while pending != {}
      invariant top in keys && pending <= keys
      invariant forall k :: k in keys && k !in pending ==> k <= top
      decreases |pending|
    {
      var k :| k in pending;
      top := if k > top then k else top;
      pending := pending - {k};
    }
  }

  method RequireContiguous(deltas: map<nat, string>, maximum: int) returns (ok: bool)
    requires forall k :: k in deltas ==> k >= 2
    ensures ok <==> Contiguous(deltas, maximum)
  {
    if deltas == map[] {
      return true;
    }
    assert deltas.Keys != {};
    var top := Largest(deltas.Keys);
    if top > maximum {
      return false;
    }
    for index := 2 to top + 1
      invariant forall j :: 2 <= j < index ==> j in deltas
    {
      if index !in deltas {
        assert top in deltas && 2 <= index < top;
        return false;
      }
    }
    ok := true;
  }

  /** A declaration the renderer turns into a plan. */
  predicate Renderable(table: Table, deltas: map<nat, string>, hasTests: bool) {
    && table.max.Some? && table.max.value >= 2
    && Contiguous(deltas, table.max.value)
    && (table.verifyBetween == Some(true) ==> hasTests)
    && (table.continueInstruction.Some? ==> NonBlank(table.continueInstruction.value))
    && Positive(table.maxTurns) && Positive(table.timeoutSeconds)
  }

  function ContinueText(table: Table): string {
    if table.continueInstruction.Some? then table.continueInstruction.value else DEFAULT_CONTINUE_INSTRUCTION
  }

  /** The instruction of episode `k + 2`: its own delta, or the continue text. */
  function InstructionAfter(table: Table, deltas: map<nat, string>, k: nat): string {
    if k + 2 in deltas then deltas[k + 2] else ContinueText(table)
  }

  predicate Renders(table: Table, deltas: map<nat, string>, plan: EpisodePlan) {
    && Some(plan.max) == table.max && plan.verifyBetween == (table.verifyBetween == Some(true))
    && plan.maxTurns == table.maxTurns && plan.timeoutSeconds == table.timeoutSeconds
    && |plan.instructions| == plan.max - 1
    && forall k :: 0 <= k < |plan.instructions| ==> plan.instructions[k] == InstructionAfter(table, deltas, k)
  }

  lemma {:induction false} RenderedIsAcceptable(table: Table, deltas: map<nat, string>, hasTests: bool,
                                                plan: EpisodePlan)
    requires forall k :: k in deltas ==> NonBlank(deltas[k])
    requires Renderable(table, deltas, hasTests) && Renders(table, deltas, plan)
    ensures AcceptablePlan(plan)
  {
    DefaultInstructionIsNotBlank();
    forall k | 0 <= k < |plan.instructions|
      ensures NonBlank(plan.instructions[k])
    {
      assert plan.instructions[k] == InstructionAfter(table, deltas, k);
    }
  }

  /** Every rendered plan is acceptable to the trial side as it is. */
  method RenderEpisodePlan(table: Option<Table>, deltas: map<nat, string>, hasTests: bool)
    returns (rendered: Result<Option<EpisodePlan>>)
    requires forall k :: k in deltas ==> k >= 2 && NonBlank(deltas[k])
    ensures rendered == Ok(None) <==>
            deltas == map[] && (table.None? || table.value.max == Some(1))
    ensures rendered.Ok? && rendered.value.Some? <==> table.Some? && Renderable(table.value, deltas, hasTests)
    ensures rendered.Ok? && rendered.value.Some? ==>
              Renders(table.value, deltas, rendered.value.value) && AcceptablePlan(rendered.value.value)
    ensures rendered.Ok? && rendered.value.Some? <==>
            table.Some? &&
            var t := table.value;
            && t.max.Some? && t.max.value >= 2
            && (forall k :: k in deltas ==> k <= t.max.value && forall j :: 2 <= j < k ==> j in deltas)
            && (t.verifyBetween == Some(true) ==> hasTests)
            && (t.continueInstruction.Some? ==> NonBlank(t.continueInstruction.value))
            && (t.maxTurns.Some? ==> t.maxTurns.value >= 1)
            && (t.timeoutSeconds.Some? ==> t.timeoutSeconds.value >= 1)
    ensures rendered.Ok? && rendered.value.Some? ==>
              var plan, t := rendered.value.value, table.value;
              && Some(plan.max) == t.max && (plan.verifyBetween <==> t.verifyBetween == Some(true))
              && plan.maxTurns == t.maxTurns && plan.timeoutSeconds == t.timeoutSeconds
              && forall k :: 2 <= k <= plan.max ==>
                   plan.instructions[k - 2] ==
                   if k in deltas then deltas[k]
                   else if t.continueInstruction.Some? then t.continueInstruction.value
                   else "Continue work on the project."
  {
    if table.None? {
      return if deltas != map[] then Err("delta files but no [episodes] table") else Ok(None);
    }
    var t := table.value;
    if t.max.None? || t.max.value < 1 {
      return Err("max must be an integer >= 1");
    }
    var maximum := t.max.value;
    if maximum == 1 {
      return if deltas != map[] then Err("max = 1 cannot carry deltas") else Ok(None);
    }
    var contiguous := RequireContiguous(deltas, maximum);
    if !contiguous {
      return Err("delta files must be contiguous from 002");
    }
    var verifyBetween := t.verifyBetween.Some? && t.verifyBetween.value;
    if verifyBetween && !hasTests {
      return Err("verify_between requires tests/test.sh");
    }
    if t.continueInstruction.Some? && !NonBlank(t.continueInstruction.value) {
      return Err("continue_instruction must be a non-empty string");
    }
    if !Positive(t.maxTurns) || !Positive(t.timeoutSeconds) {
      return Err("must be an integer >= 1");
    }
    var instructions := seq(maximum - 1, k requires 0 <= k < maximum - 1 => InstructionAfter(t, deltas, k));
    var plan := EpisodePlan(maximum, verifyBetween, instructions, t.maxTurns, t.timeoutSeconds);
    RenderedIsAcceptable(t, deltas, hasTests, plan);
    rendered := Ok(Some(plan));
  }

  lemma {:induction false} DefaultInstructionIsNotBlank()
    ensures NonBlank(DEFAULT_CONTINUE_INSTRUCTION)
  {
    assert !IsSpace(DEFAULT_CONTINUE_INSTRUCTION[0]);
  }

  // ---------- The relay ----------

  datatype Exec = Exited(zero: bool) | TimedOut(cleaned: bool) | ExecRaised

  datatype Parsed = Parsed(ended: Option<string>, usage: Option<Counts>, cost: Option<real>)

  datatype Verdict = Reward(reward: Option<real>) | VerifierRaised

  /** What happens in each episode; position 0 is episode 1. */
  datatype Host = Host(
    exec: nat -> Exec,
    parsed: nat -> Parsed,
    startedAt: nat -> string,
    finishedAt: nat -> string,
    verify: nat -> Verdict)

  datatype EpisodeRecord = EpisodeRecord(
    index: int,
    ended: string,
    startedAt: string,
    finishedAt: string,
    usage: Option<Counts>,
    cost: Option<real>,
    reward: Option<real>)

  datatype Relay = Relay(count: int, items: seq<EpisodeRecord>, toResolution: Option<int>)

  function EndedOf(parsed: Parsed, exec: Exec): string {
    if exec.TimedOut? then "timeout"
    else if exec == Exited(false) || parsed.ended == Some("error") then "error"
    else if parsed.ended == Some("natural") then "natural"
    else "error"
  }

  /** The episode raises before there is anything to record. */
  predicate Broken(host: Host, i: nat) {
    host.exec(i).ExecRaised? || host.exec(i) == TimedOut(false)
  }

  predicate Failed(host: Host, i: nat) {
    EndedOf(host.parsed(i), host.exec(i)) == "error"
  }

  /** The verifier runs between two episodes, never after the last or a failed one. */
  predicate Verified(plan: EpisodePlan, host: Host, i: nat) {
    plan.verifyBetween && i + 1 < plan.max && !Failed(host, i)
  }

  predicate Resolved(plan: EpisodePlan, host: Host, i: nat) {
    && Verified(plan, host, i) && host.verify(i).Reward?
    && host.verify(i).reward.Some? && host.verify(i).reward.value >= 1.0
  }

  predicate Raises(plan: EpisodePlan, host: Host, i: nat) {
    Broken(host, i) || Failed(host, i) || (Verified(plan, host, i) && host.verify(i).VerifierRaised?)
  }

  predicate GoesOn(plan: EpisodePlan, host: Host, i: nat) {
    !Raises(plan, host, i) && !Resolved(plan, host, i)
  }

  function RecordAt(plan: EpisodePlan, host: Host, i: nat): EpisodeRecord {
    var parsed := host.parsed(i);
    EpisodeRecord(i + 1, EndedOf(parsed, host.exec(i)), host.startedAt(i), host.finishedAt(i),
                  parsed.usage, parsed.cost,
                  if Verified(plan, host, i) && host.verify(i).Reward? then host.verify(i).reward else None)
  }

  /** The relay recorded `n` episodes: it went on after each but the last, and the
      last, or the one that could not be recorded, ended it. */
  predicate RelayStopsAt(plan: EpisodePlan, host: Host, n: nat) {
    && n <= plan.max
    && (forall i :: 0 <= i < n - 1 ==> GoesOn(plan, host, i))
    && (forall i :: 0 <= i < n ==> !Broken(host, i))
    && (n == plan.max || (n > 0 && !GoesOn(plan, host, n - 1)) || Broken(host, n))
  }

  /** What the record of an episode tells: it timed out; or its program exited with zero
      and its stream ended naturally; or it is an error. */
  lemma {:induction false} RecordTells(plan: EpisodePlan, host: Host, i: nat)
    requires host.exec(i).Exited? || host.exec(i).TimedOut?
    ensures var record, parsed := RecordAt(plan, host, i), host.parsed(i);
            && record.index == i + 1 && record.usage == parsed.usage && record.cost == parsed.cost
            && record.startedAt == host.startedAt(i) && record.finishedAt == host.finishedAt(i)
            && record.ended == (if host.exec(i).TimedOut? then "timeout"
                                else if host.exec(i).zero && parsed.ended == Some("natural") then "natural"
                                else "error")
            && (record.reward.Some? <==>
              && plan.verifyBetween && i + 1 < plan.max && record.ended != "error"
              && host.verify(i).Reward? && host.verify(i).reward.Some?)
            && (record.reward.Some? ==> record.reward == host.verify(i).reward)
  {
  }

  /** The relay goes on after an episode exactly when it ended naturally or timed out and
      was cleaned up, and no verifier that ran after it raised or gave a full reward. */
  lemma {:induction false} GoesOnIff(plan: EpisodePlan, host: Host, i: nat)
    ensures GoesOn(plan, host, i) <==>
            && (|| host.exec(i) == TimedOut(true)
                || (host.exec(i) == Exited(true) && host.parsed(i).ended == Some("natural")))
            && (plan.verifyBetween && i + 1 < plan.max ==>
              && host.verify(i).Reward?
              && (host.verify(i).reward.Some? ==> host.verify(i).reward.value < 1.0))
  {
  }

  /** The records of the first `n` episodes. */
  function Records(plan: EpisodePlan, host: Host, n: nat): (records: seq<EpisodeRecord>)
    ensures |records| == n
  {
    if n == 0 then [] else Records(plan, host, n - 1) + [RecordAt(plan, host, n - 1)]
  }

  function Usages(host: Host, n: nat): (usages: seq<Option<Counts>>)
    ensures |usages| == n
  {
    if n == 0 then [] else Usages(host, n - 1) + [host.parsed(n - 1).usage]
  }

  function Costs(host: Host, n: nat): (costs: seq<Option<real>>)
    ensures |costs| == n
  {
    if n == 0 then [] else Costs(host, n - 1) + [host.parsed(n - 1).cost]
  }

  /** The texts given to the first `n` episodes. */
  function Texts(plan: EpisodePlan, instruction: string, n: nat): (texts: seq<string>)
    requires AcceptablePlan(plan) && n <= plan.max
    ensures |texts| == n
  {
    if n == 0 then []
    else Texts(plan, instruction, n - 1) + [if n == 1 then instruction else plan.instructions[n - 2]]
  }

  /** The first episode gets the task's instruction, and each later one its own. */
  lemma {:induction false} TextsAre(plan: EpisodePlan, instruction: string, n: nat)
    requires AcceptablePlan(plan) && n <= plan.max
    ensures forall i :: 0 <= i < n ==>
              Texts(plan, instruction, n)[i] == if i == 0 then instruction else plan.instructions[i - 1]
  {
    if n > 0 {
      TextsAre(plan, instruction, n - 1);
    }
  }

  lemma {:induction false} RecordsAre(plan: EpisodePlan, host: Host, n: nat)
    ensures forall i :: 0 <= i < n ==> Records(plan, host, n)[i] == RecordAt(plan, host, i)
  {
    if n > 0 {
      RecordsAre(plan, host, n - 1);
    }
  }

  /** One episode: its record, if it got that far, and how the relay goes on. */
  method RunEpisode(plan: EpisodePlan, host: Host, i: nat)
    returns (record: Option<EpisodeRecord>, raised: bool, resolved: bool)
    ensures record == if Broken(host, i) then None else Some(RecordAt(plan, host, i))
    ensures raised <==> Raises(plan, host, i)
    ensures resolved <==> !Raises(plan, host, i) && Resolved(plan, host, i)
  {
    if Broken(host, i) {
      return None, true, false;
    }
    var parsed := host.parsed(i);
    var ended := EndedOf(parsed, host.exec(i));
    var plain := EpisodeRecord(i + 1, ended, host.startedAt(i), host.finishedAt(i), parsed.usage, parsed.cost, None);
    if ended == "error" {
      return Some(plain), true, false;
    }
    if plan.verifyBetween && i + 1 < plan.max {
      var verdict := host.verify(i);
      if verdict.VerifierRaised? {
        return Some(plain), true, false;
      }
      if verdict.reward.Some? {
        return Some(plain.(reward := verdict.reward)), false, verdict.reward.value >= 1.0;
      }
    }
    return Some(plain), false, false;
  }

  /** How a relay that stopped after `n` records ended. */
  predicate ReturnsAfter(plan: EpisodePlan, host: Host, n: nat) {
    n > 0 && !Raises(plan, host, n - 1) && (n == plan.max || Resolved(plan, host, n - 1))
  }

  /** What is written after `n` records. */
  function Written(plan: EpisodePlan, host: Host, n: nat): Option<Relay> {
    if n == 0 then None
    else
      Some(Relay(n, Records(plan, host, n),
                 if !Raises(plan, host, n - 1) && Resolved(plan, host, n - 1) then Some(n) else None))
  }

  /** The relay went on after each of the first `n` episodes. */
  predicate WentOn(plan: EpisodePlan, host: Host, n: nat) {
    n == 0 || (WentOn(plan, host, n - 1) && GoesOn(plan, host, n - 1))
  }

  /** After `i` started and `n` recorded episodes. */
  predicate Underway(plan: EpisodePlan, host: Host, i: nat, n: nat, raised: bool, resolved: bool) {
    && i <= plan.max
    && if !raised && !resolved then n == i && WentOn(plan, host, i)
    else
      && i > 0 && WentOn(plan, host, i - 1) && n == (if Broken(host, i - 1) then i - 1 else i)
      && raised == Raises(plan, host, i - 1) && resolved == (!raised && Resolved(plan, host, i - 1))
  }

  lemma {:induction false} WentOnAll(plan: EpisodePlan, host: Host, n: nat)
    requires WentOn(plan, host, n)
    ensures forall i :: 0 <= i < n ==> GoesOn(plan, host, i) && !Broken(host, i)
  {
    if n > 0 {
      WentOnAll(plan, host, n - 1);
    }
  }

  lemma {:induction false} UnderwayStops(plan: EpisodePlan, host: Host, i: nat, n: nat, raised: bool, resolved: bool)
    requires Underway(plan, host, i, n, raised, resolved) && (i == plan.max || raised || resolved) && plan.max > 0
    ensures RelayStopsAt(plan, host, n) && (!raised <==> ReturnsAfter(plan, host, n))
    ensures resolved ==> n == i
    ensures n > 0 ==> (resolved <==> !Raises(plan, host, n - 1) && Resolved(plan, host, n - 1))
    ensures i == n || (i == n + 1 && Broken(host, n))
  {
    WentOnAll(plan, host, if raised || resolved then i - 1 else i);
    assert n > 0 && n == i - 1 ==> GoesOn(plan, host, n - 1);
    assert n > 0 && !raised && !resolved ==> GoesOn(plan, host, n - 1);
  }

  /** Runs the episodes of a plan.  Whatever ends the relay, the record of the episodes
      so far is written, if there is one. */
  method RunEpisodes(plan: EpisodePlan, instruction: string, host: Host)
    returns (returned: bool, usages: seq<Option<Counts>>, costs: seq<Option<real>>, texts: seq<string>,
             written: Option<Relay>)
    requires AcceptablePlan(plan)
    ensures var n := |usages|;
            && RelayStopsAt(plan, host, n) && (returned <==> ReturnsAfter(plan, host, n))
            && usages == Usages(host, n) && costs == Costs(host, n) && written == Written(plan, host, n)
            && |texts| <= plan.max && texts == Texts(plan, instruction, |texts|)
            && (|texts| == n || (|texts| == n + 1 && Broken(host, n)))
  {
    var records: seq<EpisodeRecord> := [];
    usages, costs, texts := [], [], [];
    var raised, resolved, i := false, false, 0;
    while i < plan.max && !raised && !resolved
      invariant Underway(plan, host, i, |usages|, raised, resolved)
      invariant texts == Texts(plan, instruction, i) && records == Records(plan, host, |usages|)
      invariant usages == Usages(host, |usages|) && costs == Costs(host, |usages|)
    {
      texts := texts + [if i == 0 then instruction else plan.instructions[i - 1]];
      var record;
      record, raised, resolved := RunEpisode(plan, host, i);
      if record.Some? {
        usages := usages + [host.parsed(i).usage];
        costs := costs + [host.parsed(i).cost];
        records := records + [record.value];
      }
      i := i + 1;
    }
    returned := !raised;
    UnderwayStops(plan, host, i, |usages|, raised, resolved);
    written := if records == [] then None else Some(Relay(|records|, records, if resolved then Some(i) else None));
  }

  // ---------- What the record shows ----------

  /** On every exit: the records are numbered 1 .. n within the maximum, only the last
      may be an error, and a resolution names the last episode, which was not the
      plan's last, reached a full reward and was the first to. */
  lemma {:induction false} RelayIsOrderly(plan: EpisodePlan, host: Host, n: nat)
    requires RelayStopsAt(plan, host, n) && n > 0
    ensures n <= plan.max
    ensures var items := Written(plan, host, n).value.items;
            && (forall i :: 0 <= i < n ==> items[i].index == i + 1)
            && (forall i :: 0 <= i < n - 1 ==> items[i].ended != "error")
            && (forall i :: 0 <= i < n - 1 && items[i].reward.Some? ==> items[i].reward.value < 1.0)
    ensures var relay := Written(plan, host, n).value;
            relay.toResolution.Some? ==>
              && relay.toResolution.value == n < plan.max
              && relay.items[n - 1].reward.Some? && relay.items[n - 1].reward.value >= 1.0
  {
    RecordsAre(plan, host, n);
    forall i | 0 <= i < n - 1
      ensures RecordAt(plan, host, i).ended != "error"
      ensures RecordAt(plan, host, i).reward.Some? ==> RecordAt(plan, host, i).reward.value < 1.0
    {
      assert GoesOn(plan, host, i);
    }
  }

  /** A resolution is claimed exactly when the last recorded episode was not the plan's
      last, was no error, and its verifier gave a full reward. */
  lemma {:induction false} ResolutionIff(plan: EpisodePlan, host: Host, n: nat)
    requires RelayStopsAt(plan, host, n) && n > 0
    ensures Written(plan, host, n).Some? && Written(plan, host, n).value.count == n
    ensures var relay, last := Written(plan, host, n).value, n - 1;
            relay.toResolution == Some(n) <==>
            && plan.verifyBetween && n < plan.max && relay.items[last].ended != "error"
            && host.verify(last).Reward? && host.verify(last).reward.Some? && host.verify(last).reward.value >= 1.0
    ensures Written(plan, host, n).value.toResolution in {None, Some(n)}
  {
    RecordsAre(plan, host, n);
  }

  // ---------- The attempt document's check ----------

  predicate NonNegative(value: Option<real>) {
    value.Some? ==> value.value >= 0.0
  }

  predicate IsEnding(ended: string) {
    ended == "natural" || ended == "cap" || ended == "timeout" || ended == "error"
  }

  predicate ValidItem(item: EpisodeRecord) {
    && item.index >= 1 && IsEnding(item.ended)
    && item.startedAt != "" && item.finishedAt != ""
    && (item.usage.Some? ==> forall key :: key in item.usage.value ==> key != "" && item.usage.value[key] >= 0)
    && NonNegative(item.cost) && NonNegative(item.reward)
  }

  predicate ValidRelay(relay: Relay) {
    && relay.count >= 1 && |relay.items| == relay.count
    && (relay.toResolution.Some? ==> 1 <= relay.toResolution.value <= relay.count)
    && forall i :: 0 <= i < |relay.items| ==> ValidItem(relay.items[i])
  }

  method ValidateEpisodes(relay: Relay) returns (accepted: bool)
    ensures accepted <==> ValidRelay(relay)
    ensures accepted <==>
            && relay.count >= 1 && |relay.items| == relay.count
            && (relay.toResolution.Some? ==> 1 <= relay.toResolution.value <= relay.count)
            && forall i :: 0 <= i < |relay.items| ==>
                 var item := relay.items[i];
                 && item.index >= 1 && item.startedAt != "" && item.finishedAt != ""
                 && (|| item.ended == "natural" || item.ended == "cap"
                     || item.ended == "timeout" || item.ended == "error")
                 && (item.usage.Some? ==>
                   forall key :: key in item.usage.value ==> key != "" && item.usage.value[key] >= 0)
                 && (item.cost.Some? ==> item.cost.value >= 0.0)
                 && (item.reward.Some? ==> item.reward.value >= 0.0)
  {
    if relay.count < 1 || |relay.items| != relay.count {
      return false;
    }
    if relay.toResolution.Some? && !(1 <= relay.toResolution.value <= relay.count) {
      return false;
    }
    for i := 0 to |relay.items|
      invariant forall k :: 0 <= k < i ==> ValidItem(relay.items[k])
    {
      if !ValidItem(relay.items[i]) {
        return false;
      }
    }
    accepted := true;
  }

  /** Clocks tick and the parser keeps only counts as usage; a cost it keeps as it is. */
  ghost predicate GoodHost(host: Host) {
    forall i: nat ::
      && host.startedAt(i) != "" && host.finishedAt(i) != ""
      && (host.parsed(i).usage.Some? ==>
        forall key :: key in host.parsed(i).usage.value ==> key != "" && host.parsed(i).usage.value[key] >= 0)
  }

  /** The written relay passes the attempt document's check exactly when no verifier
      answered with a negative reward and no episode's stream named a negative cost. */
  lemma {:induction false} RelayIsAcceptedIff(plan: EpisodePlan, host: Host, n: nat)
    requires RelayStopsAt(plan, host, n) && n > 0 && GoodHost(host)
    ensures ValidRelay(Written(plan, host, n).value) <==>
            forall i :: 0 <= i < n ==>
                          && NonNegative(host.parsed(i).cost)
                          && (Verified(plan, host, i) && host.verify(i).Reward? ==> NonNegative(host.verify(i).reward))
  {
    RecordsAre(plan, host, n);
    var items := Records(plan, host, n);
    forall i | 0 <= i < n
      ensures ValidItem(items[i]) <==>
              && NonNegative(host.parsed(i).cost)
              && (Verified(plan, host, i) && host.verify(i).Reward? ==> NonNegative(host.verify(i).reward))
    {
      assert items[i] == RecordAt(plan, host, i);
    }
  }

  /** A host on which every episode goes well, while its stream names a cost below zero. */
  function Refunding(): Host {
    Host(i => Exited(true), i => Parsed(Some("natural"), None, Some(-1.0)), i => "t", i => "t", i => Reward(None))
  }

  /** A relay can therefore run to its end and leave a record that the check refuses. */
  method NegativeCostIsRefused(plan: EpisodePlan, instruction: string) returns (returned: bool, accepted: bool)
    requires AcceptablePlan(plan)
    ensures returned && !accepted
  {
    var host := Refunding();
    var usages, costs, texts, written;
    returned, usages, costs, texts, written := RunEpisodes(plan, instruction, host);
    ghost var n := |usages|;
    assert forall i :: 0 <= i < plan.max ==> GoesOn(plan, host, i);
    assert n > 0 && !NonNegative(host.parsed(n - 1).cost);
    RelayIsAcceptedIff(plan, host, n);
    accepted := ValidateEpisodes(written.value);
  }
}
