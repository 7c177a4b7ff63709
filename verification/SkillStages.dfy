/** Skill stages read off a Pi event stream (_skill_stages_from_pi_events and
    _record_skill_outcome of harnesses/pi.py).

    A read of a skill file opens a call; a later answer with that call id is
    evidence about the skill which the call id stood for at that moment. */
module SkillStages {
  import opened Prelude

  datatype Outcome = Attempted | NotDelivered | Loaded

  function Priority(outcome: Outcome): nat {
    match outcome
    case Attempted => 0
    case NotDelivered => 1
    case Loaded => 2
  }

  /** A read call: the skill its path names, if its arguments name one, and its id,
      if that is a string. */
  datatype Read = Read(skill: Option<string>, callId: Option<string>)

  datatype Item = ReadItem(read: Read) | OtherItem

  /** The events that matter; `hasBody` says that the result contains text. */
  datatype Event =
    | ToolStart(read: Read)
    | ToolEnd(callId: Option<string>, isError: bool, hasBody: bool)
    | AssistantContent(items: seq<Item>)
    | ToolResult(callId: Option<string>, isError: bool, hasBody: bool)
    | OtherEvent

  /** What an event amounts to. */
  datatype Action = Open(id: string, skill: string) | Answer(id: string, isError: bool, hasBody: bool)

  function Opens(read: Read): seq<Action> {
    if read.skill.Some? && read.callId.Some? then [Open(read.callId.value, read.skill.value)] else []
  }

  function ItemActions(items: seq<Item>, n: nat): seq<Action>
    requires n <= |items|
  {
    if n == 0 then []
    else ItemActions(items, n - 1) + (if items[n - 1].ReadItem? then Opens(items[n - 1].read) else [])
  }

  function EventActions(event: Event): seq<Action> {
    match event
    case ToolStart(read) => Opens(read)
    case ToolEnd(id, isError, hasBody) => if id.Some? then [Answer(id.value, isError, hasBody)] else []
    case AssistantContent(items) => ItemActions(items, |items|)
    case ToolResult(id, isError, hasBody) => if id.Some? then [Answer(id.value, isError, hasBody)] else []
    case OtherEvent => []
  }

  function Actions(events: seq<Event>, n: nat): seq<Action>
    requires n <= |events|
  {
    if n == 0 then [] else Actions(events, n - 1) + EventActions(events[n - 1])
  }

  lemma {:induction false} ActionsOfPrefix(a: seq<Event>, b: seq<Event>, n: nat)
    requires n <= |a|
    ensures Actions(a + b, n) == Actions(a, n)
  {
    if n > 0 {
      ActionsOfPrefix(a, b, n - 1);
    }
  }

  lemma {:induction false} ActionsUpTo(a: seq<Event>, b: seq<Event>, n: nat)
    requires n <= |b|
    ensures Actions(a + b, |a| + n) == Actions(a, |a|) + Actions(b, n)
  {
    if n > 0 {
      ActionsUpTo(a, b, n - 1);
    } else {
      ActionsOfPrefix(a, b, |a|);
    }
  }

  /** A stream acts as its parts do, one after the other. */
  lemma {:induction false} StreamsAdd(a: seq<Event>, b: seq<Event>)
    ensures Actions(a + b, |a + b|) == Actions(a, |a|) + Actions(b, |b|)
  {
    ActionsUpTo(a, b, |b|);
  }

  lemma {:induction false} ItemsOfPrefix(a: seq<Item>, b: seq<Item>, n: nat)
    requires n <= |a|
    ensures ItemActions(a + b, n) == ItemActions(a, n)
  {
    if n > 0 {
      ItemsOfPrefix(a, b, n - 1);
    }
  }

  lemma {:induction false} ItemsUpTo(a: seq<Item>, b: seq<Item>, n: nat)
    requires n <= |b|
    ensures ItemActions(a + b, |a| + n) == ItemActions(a, |a|) + ItemActions(b, n)
  {
    if n > 0 {
      ItemsUpTo(a, b, n - 1);
    } else {
      ItemsOfPrefix(a, b, |a|);
    }
  }

  lemma {:induction false} OneEvent(event: Event)
    ensures Actions([event], 1) == EventActions(event)
  {
    assert Actions([event], 1) == Actions([event], 0) + EventActions([event][0]);
  }

  lemma {:induction false} OneItem(item: Item)
    ensures ItemActions([item], 1) == if item.ReadItem? then Opens(item.read) else []
  {
    assert ItemActions([item], 1) ==
           ItemActions([item], 0) + (if [item][0].ReadItem? then Opens([item][0].read) else []);
  }

  /** What one event amounts to, in either dialect of the stream: a read of a skill file
      with a call id opens, whether it is an event or an item of an assistant message; an
      answer with a call id answers, whether it is an event or a message; all else is
      nothing. */
  lemma {:induction false} EventShows(id: string, skill: string, isError: bool, hasBody: bool, other: Option<string>)
    ensures var opening := Read(Some(skill), Some(id));
            Actions([ToolStart(opening)], 1) == Actions([AssistantContent([ReadItem(opening)])], 1) == [Open(id, skill)]
    ensures Actions([ToolStart(Read(None, other))], 1) == Actions([ToolStart(Read(other, None))], 1) == []
    ensures Actions([AssistantContent([OtherItem])], 1) == Actions([AssistantContent([])], 1) == []
    ensures Actions([ToolEnd(Some(id), isError, hasBody)], 1) == Actions([ToolResult(Some(id), isError, hasBody)], 1) ==
            [Answer(id, isError, hasBody)]
    ensures Actions([ToolEnd(None, isError, hasBody)], 1) == Actions([ToolResult(None, isError, hasBody)], 1) == []
    ensures Actions([OtherEvent], 1) == []
  {
    var opening := Read(Some(skill), Some(id));
    OneEvent(ToolStart(opening));
    OneEvent(AssistantContent([ReadItem(opening)]));
    OneItem(ReadItem(opening));
    OneEvent(ToolStart(Read(None, other)));
    OneEvent(ToolStart(Read(other, None)));
    OneEvent(AssistantContent([OtherItem]));
    OneItem(OtherItem);
    OneEvent(AssistantContent([]));
    OneEvent(ToolEnd(Some(id), isError, hasBody));
    OneEvent(ToolResult(Some(id), isError, hasBody));
    OneEvent(ToolEnd(None, isError, hasBody));
    OneEvent(ToolResult(None, isError, hasBody));
    OneEvent(OtherEvent);
  }

  /** An assistant message acts as its items do, one after the other. */
  lemma {:induction false} MessagesAdd(x: seq<Item>, y: seq<Item>)
    ensures Actions([AssistantContent(x + y)], 1) ==
            Actions([AssistantContent(x)], 1) + Actions([AssistantContent(y)], 1)
  {
    OneEvent(AssistantContent(x));
    OneEvent(AssistantContent(y));
    OneEvent(AssistantContent(x + y));
    ItemsUpTo(x, y, |y|);
  }

  // ---------- What the stages should be ----------

  /** `actions[j]` is the latest opening of `id` before position `i`, for `skill`. */
  ghost predicate StandsFor(actions: seq<Action>, i: nat, j: nat, id: string, skill: string) {
    && j < i <= |actions| && actions[j] == Open(id, skill)
    && forall k :: j < k < i && actions[k].Open? ==> actions[k].id != id
  }

  /** The evidence that action `i` gives about `skill`. */
  ghost predicate Shows(actions: seq<Action>, i: nat, skill: string, outcome: Outcome) {
    && i < |actions|
    && match actions[i]
       case Open(_, target) => target == skill && outcome == Attempted
       case Answer(id, isError, hasBody) =>
         && outcome == (if isError then NotDelivered else Loaded) && (isError || hasBody)
         && exists j: nat :: StandsFor(actions, i, j, id, skill)
  }

  ghost predicate ShownBy(actions: seq<Action>, n: nat, skill: string, outcome: Outcome) {
    exists i :: 0 <= i < n && Shows(actions, i, skill, outcome)
  }

  /** The best evidence among the first `n` actions. */
  ghost predicate IsBest(actions: seq<Action>, n: nat, skill: string, outcome: Outcome) {
    && ShownBy(actions, n, skill, outcome)
    && forall other: Outcome :: Priority(other) > Priority(outcome) ==> !ShownBy(actions, n, skill, other)
  }

  // ---------- The fold ----------

  /** `order` holds the keys of `outcomes` in order of insertion. */
  datatype State = State(order: seq<string>, outcomes: map<string, Outcome>, calls: map<string, string>)

  const START := State([], map[], map[])

  function Recorded(s: State, skill: string, outcome: Outcome): State {
    if skill !in s.outcomes then s.(order := s.order + [skill], outcomes := s.outcomes[skill := outcome])
    else if Priority(outcome) > Priority(s.outcomes[skill]) then s.(outcomes := s.outcomes[skill := outcome])
    else s
  }

  function Acted(s: State, action: Action): State {
    match action
    case Open(id, skill) => Recorded(s, skill, Attempted).(calls := s.calls[id := skill])
    case Answer(id, isError, hasBody) =>
      if id !in s.calls then s
      else if isError then Recorded(s, s.calls[id], NotDelivered)
      else if hasBody then Recorded(s, s.calls[id], Loaded)
      else s
  }

  /** The state after the first `n` actions. */
  function After(actions: seq<Action>, n: nat): State
    requires n <= |actions|
  {
    if n == 0 then START else Acted(After(actions, n - 1), actions[n - 1])
  }

  class Recorder {
    var order: seq<string>
    var outcomes: map<string, Outcome>
    var calls: map<string, string>

    constructor ()
      ensures View() == START
    {
      order, outcomes, calls := [], map[], map[];
    }

    function View(): State
      reads this
    {
      State(order, outcomes, calls)
    }

    method Record(skill: string, outcome: Outcome)
      modifies this
      ensures View() == Recorded(old(View()), skill, outcome)
    {
      if skill !in outcomes {
        order := order + [skill];
        outcomes := outcomes[skill := outcome];
      } else if Priority(outcome) > Priority(outcomes[skill]) {
        outcomes := outcomes[skill := outcome];
      }
    }

    /** A read call of the stream; `before` is what came earlier. */
    method Reads(read: Read, ghost before: seq<Action>)
      requires View() == After(before, |before|)
      modifies this
      ensures View() == After(before + Opens(read), |before + Opens(read)|)
    {
      if read.skill.None? || read.callId.None? {
        assert before + Opens(read) == before;
        return;
      }
      Record(read.skill.value, Attempted);
      calls := calls[read.callId.value := read.skill.value];
      AfterAppend(before, Open(read.callId.value, read.skill.value));
    }

    method Answers(callId: Option<string>, isError: bool, hasBody: bool, ghost before: seq<Action>)
      requires View() == After(before, |before|)
      modifies this
      ensures var now := before + (if callId.Some? then [Answer(callId.value, isError, hasBody)] else []);
              View() == After(now, |now|)
    {
      if callId.None? {
        assert before + [] == before;
        return;
      }
      AfterAppend(before, Answer(callId.value, isError, hasBody));
      if callId.value !in calls {
        return;
      }
      if isError {
        Record(calls[callId.value], NotDelivered);
      } else if hasBody {
        Record(calls[callId.value], Loaded);
      }
    }

    method Scans(event: Event, ghost before: seq<Action>)
      requires View() == After(before, |before|)
      modifies this
      ensures View() == After(before + EventActions(event), |before + EventActions(event)|)
    {
      match event {
        case ToolStart(read) =>
          Reads(read, before);
        case ToolEnd(callId, isError, hasBody) =>
          Answers(callId, isError, hasBody, before);
        case ToolResult(callId, isError, hasBody) =>
          Answers(callId, isError, hasBody, before);
        case OtherEvent =>
          assert before + EventActions(event) == before;
        case AssistantContent(items) =>
          assert before + ItemActions(items, 0) == before;
          for k := 0 to |items|
            invariant View() == After(before + ItemActions(items, k), |before + ItemActions(items, k)|)
          {
            ghost var now := before + ItemActions(items, k);
            if items[k].ReadItem? {
              Reads(items[k].read, now);
              assert before + ItemActions(items, k + 1) == now + Opens(items[k].read);
            } else {
              assert before + ItemActions(items, k + 1) == now;
            }
          }
      }
    }
  }

  lemma {:induction false} AfterAppend(before: seq<Action>, action: Action)
    ensures After(before + [action], |before| + 1) == Acted(After(before, |before|), action)
  {
    AfterPrefix(before, before + [action], |before|);
  }

  lemma {:induction false} AfterPrefix(a: seq<Action>, b: seq<Action>, n: nat)
    requires n <= |a| <= |b| && b[..|a|] == a
    ensures After(b, n) == After(a, n)
  {
    if n > 0 {
      AfterPrefix(a, b, n - 1);
      assert a[n - 1] == b[n - 1];
    }
  }

  // ---------- The fold finds the best evidence ----------

  ghost predicate CallsAgree(actions: seq<Action>, n: nat, calls: map<string, string>)
    requires n <= |actions|
  {
    && (forall id :: id in calls ==> exists j: nat :: StandsFor(actions, n, j, id, calls[id]))
    && (forall j: nat, id, skill :: StandsFor(actions, n, j, id, skill) ==> id in calls && calls[id] == skill)
  }

  lemma {:induction false} CallsStandForLatest(actions: seq<Action>, n: nat)
    requires n <= |actions|
    ensures CallsAgree(actions, n, After(actions, n).calls)
  {
    if n > 0 {
      CallsStandForLatest(actions, n - 1);
      StandsForSteps(actions, n, After(actions, n - 1).calls);
    }
  }

  lemma {:induction false} StandsForSteps(actions: seq<Action>, n: nat, calls: map<string, string>)
    requires 0 < n <= |actions| && CallsAgree(actions, n - 1, calls)
    ensures var action := actions[n - 1];
            CallsAgree(actions, n, if action.Open? then calls[action.id := action.skill] else calls)
  {
    var action := actions[n - 1];
    var now := if action.Open? then calls[action.id := action.skill] else calls;
    forall id | id in now
      ensures exists j: nat :: StandsFor(actions, n, j, id, now[id])
    {
      if action.Open? && action.id == id {
        assert StandsFor(actions, n, n - 1, id, now[id]);
      } else {
        var j: nat :| StandsFor(actions, n - 1, j, id, calls[id]);
        assert StandsFor(actions, n, j, id, now[id]);
      }
    }
    forall j: nat, id, skill | StandsFor(actions, n, j, id, skill)
      ensures id in now && now[id] == skill
    {
      if j < n - 1 {
        assert StandsFor(actions, n - 1, j, id, skill);
      }
    }
  }

  /** What action `i` shows, in terms of the calls known when it happens. */
  function Evidence(calls: map<string, string>, action: Action): Option<(string, Outcome)> {
    match action
    case Open(_, skill) => Some((skill, Attempted))
    case Answer(id, isError, hasBody) =>
      if id !in calls then None
      else if isError then Some((calls[id], NotDelivered))
      else if hasBody then Some((calls[id], Loaded))
      else None
  }

  lemma {:induction false} EvidenceIsShown(actions: seq<Action>, i: nat, skill: string, outcome: Outcome)
    requires i < |actions|
    ensures Shows(actions, i, skill, outcome) <==>
            Evidence(After(actions, i).calls, actions[i]) == Some((skill, outcome))
  {
    CallsStandForLatest(actions, i);
  }

  /** Recording evidence keeps, per skill, exactly the best evidence so far. */
  ghost predicate OutcomesAgree(actions: seq<Action>, n: nat, outcomes: map<string, Outcome>) {
    && (forall skill :: skill in outcomes ==> IsBest(actions, n, skill, outcomes[skill]))
    && (forall skill, outcome :: ShownBy(actions, n, skill, outcome) ==>
      skill in outcomes && Priority(outcome) <= Priority(outcomes[skill]))
  }

  lemma {:induction false} ShownByStep(actions: seq<Action>, n: nat, skill: string, outcome: Outcome)
    requires 0 < n <= |actions|
    ensures ShownBy(actions, n, skill, outcome) <==>
            ShownBy(actions, n - 1, skill, outcome) || Shows(actions, n - 1, skill, outcome)
  {
  }

  lemma {:induction false} OutcomesAreBest(actions: seq<Action>, n: nat)
    requires n <= |actions|
    ensures OutcomesAgree(actions, n, After(actions, n).outcomes)
  {
    if n > 0 {
      OutcomesAreBest(actions, n - 1);
      var s := After(actions, n - 1);
      var evidence := Evidence(s.calls, actions[n - 1]);
      forall skill, outcome
        ensures Shows(actions, n - 1, skill, outcome) <==> evidence == Some((skill, outcome))
        ensures ShownBy(actions, n, skill, outcome) <==>
                ShownBy(actions, n - 1, skill, outcome) || evidence == Some((skill, outcome))
      {
        EvidenceIsShown(actions, n - 1, skill, outcome);
        ShownByStep(actions, n, skill, outcome);
      }
      var now := After(actions, n).outcomes;
      assert now == if evidence.None? then s.outcomes else Recorded(s, evidence.value.0, evidence.value.1).outcomes;
      BestStep(actions, n, s, evidence, now);
    }
  }

  /** Better evidence replaces worse, and nothing else changes. */
  lemma {:induction false} BestStep(actions: seq<Action>, n: nat, s: State, evidence: Option<(string, Outcome)>,
                                    now: map<string, Outcome>)
    requires 0 < n && OutcomesAgree(actions, n - 1, s.outcomes)
    requires forall skill, outcome ::
               ShownBy(actions, n, skill, outcome) <==>
               ShownBy(actions, n - 1, skill, outcome) || evidence == Some((skill, outcome))
    requires now == if evidence.None? then s.outcomes else Recorded(s, evidence.value.0, evidence.value.1).outcomes
    ensures OutcomesAgree(actions, n, now)
  {
  }

  /** Skills are listed once each, in the order in which they were first opened. */
  ghost predicate OrderAgrees(actions: seq<Action>, n: nat, s: State)
    requires n <= |actions|
  {
    && (forall skill :: skill in s.outcomes <==> skill in s.order)
    && (forall a :: 0 <= a < |s.order| ==> OpenedWithin(actions, n, s.order[a]))
    && (forall a, b :: 0 <= a < b < |s.order| ==> OpenedBefore(actions, n, s.order[a], s.order[b]))
  }

  ghost predicate Opened(actions: seq<Action>, i: nat, skill: string)
    requires i < |actions|
  {
    actions[i].Open? && actions[i].skill == skill
  }

  ghost predicate OpenedWithin(actions: seq<Action>, n: nat, skill: string)
    requires n <= |actions|
  {
    exists i :: 0 <= i < n && Opened(actions, i, skill)
  }

  ghost predicate OpenedBefore(actions: seq<Action>, n: nat, first: string, second: string)
    requires n <= |actions|
  {
    exists i :: 0 <= i < n && Opened(actions, i, first) && forall k :: 0 <= k <= i ==> !Opened(actions, k, second)
  }

  /** Every known call stands for a skill that has an outcome already. */
  lemma {:induction false} CallsHaveOutcomes(actions: seq<Action>, n: nat)
    requires n <= |actions|
    ensures forall id :: id in After(actions, n).calls ==> After(actions, n).calls[id] in After(actions, n).outcomes
    ensures forall i :: 0 <= i < n && actions[i].Open? ==> actions[i].skill in After(actions, n).outcomes
  {
    if n > 0 {
      CallsHaveOutcomes(actions, n - 1);
    }
  }

  lemma {:induction false} OrderGrows(actions: seq<Action>, n: nat, s: State)
    requires 0 < n <= |actions| && OrderAgrees(actions, n - 1, s)
    ensures OrderAgrees(actions, n, s)
  {
    forall a | 0 <= a < |s.order|
      ensures OpenedWithin(actions, n, s.order[a])
    {
      assert OpenedWithin(actions, n - 1, s.order[a]);
    }
    forall a, b | 0 <= a < b < |s.order|
      ensures OpenedBefore(actions, n, s.order[a], s.order[b])
    {
      assert OpenedBefore(actions, n - 1, s.order[a], s.order[b]);
    }
  }

  lemma {:induction false} OrderIsFirstOpened(actions: seq<Action>, n: nat)
    requires n <= |actions|
    ensures OrderAgrees(actions, n, After(actions, n))
  {
    if n > 0 {
      OrderIsFirstOpened(actions, n - 1);
      CallsHaveOutcomes(actions, n - 1);
      var s, t := After(actions, n - 1), After(actions, n);
      OrderGrows(actions, n, s);
      if t.order != s.order {
        NewSkillIsLast(actions, n, s, t);
      }
    }
  }

  lemma {:induction false} NewSkillIsLast(actions: seq<Action>, n: nat, s: State, t: State)
    requires 0 < n <= |actions| && OrderAgrees(actions, n, s) && OrderAgrees(actions, n - 1, s)
    requires forall i :: 0 <= i < n - 1 && actions[i].Open? ==> actions[i].skill in s.outcomes
    requires actions[n - 1].Open? && actions[n - 1].skill !in s.outcomes
    requires t.order == s.order + [actions[n - 1].skill] && t.outcomes.Keys == s.outcomes.Keys + {actions[n - 1].skill}
    ensures OrderAgrees(actions, n, t)
  {
    var last := actions[n - 1].skill;
    assert Opened(actions, n - 1, last);
    forall a, b | 0 <= a < b < |t.order|
      ensures OpenedBefore(actions, n, t.order[a], t.order[b])
    {
      if b == |s.order| {
        assert OpenedWithin(actions, n - 1, s.order[a]);
        var i :| 0 <= i < n - 1 && Opened(actions, i, s.order[a]);
        assert forall k :: 0 <= k <= i ==> !Opened(actions, k, last);
      } else {
        assert OpenedBefore(actions, n, s.order[a], s.order[b]);
      }
    }
    forall skill
      ensures skill in t.outcomes <==> skill in t.order
    {
      assert skill in t.outcomes <==> skill in s.outcomes || skill == last;
    }
  }

  // ---------- The scan ----------

  datatype Stage = Stage(skill: string, outcome: Outcome)

  ghost predicate ListsState(stages: seq<Stage>, s: State) {
    && |stages| == |s.order|
    && forall k :: 0 <= k < |stages| ==>
      s.order[k] in s.outcomes && stages[k] == Stage(s.order[k], s.outcomes[s.order[k]])
  }

  /** The stages are, per skill with any evidence, the best evidence seen, in the
      order in which the skills were first opened. */
  ghost predicate StagesAre(actions: seq<Action>, stages: seq<Stage>) {
    && (forall k :: 0 <= k < |stages| ==> IsBest(actions, |actions|, stages[k].skill, stages[k].outcome))
    && (forall skill, outcome :: ShownBy(actions, |actions|, skill, outcome) ==>
      exists k :: 0 <= k < |stages| && stages[k].skill == skill)
    && (forall a, b :: 0 <= a < b < |stages| ==>
      OpenedBefore(actions, |actions|, stages[a].skill, stages[b].skill))
  }

  lemma {:induction false} ListedStagesAreBest(actions: seq<Action>, stages: seq<Stage>)
    requires ListsState(stages, After(actions, |actions|))
    ensures StagesAre(actions, stages)
  {
    var s := After(actions, |actions|);
    OutcomesAreBest(actions, |actions|);
    OrderIsFirstOpened(actions, |actions|);
    forall skill, outcome | ShownBy(actions, |actions|, skill, outcome)
      ensures exists k :: 0 <= k < |stages| && stages[k].skill == skill
    {
      assert skill in s.order;
      var k :| 0 <= k < |s.order| && s.order[k] == skill;
      assert stages[k].skill == skill;
    }
    forall a, b | 0 <= a < b < |stages|
      ensures OpenedBefore(actions, |actions|, stages[a].skill, stages[b].skill)
    {
      assert OpenedBefore(actions, |actions|, s.order[a], s.order[b]);
    }
  }

  lemma {:induction false} EveryListedSkillHasOutcome(actions: seq<Action>)
    ensures forall skill :: skill in After(actions, |actions|).order ==> skill in After(actions, |actions|).outcomes
  {
    OrderIsFirstOpened(actions, |actions|);
  }

  method SkillStagesFromEvents(events: seq<Event>) returns (stages: seq<Stage>)
    ensures StagesAre(Actions(events, |events|), stages)
  {
    var recorder := new Recorder();
    for n := 0 to |events|
      invariant recorder.View() == After(Actions(events, n), |Actions(events, n)|)
    {
      recorder.Scans(events[n], Actions(events, n));
    }
    ghost var actions := Actions(events, |events|);
    EveryListedSkillHasOutcome(actions);
    stages := [];
    for k := 0 to |recorder.order|
      invariant recorder.View() == After(actions, |actions|) && |stages| == k
      invariant forall a :: 0 <= a < k ==>
                              && recorder.order[a] in recorder.outcomes
                              && stages[a] == Stage(recorder.order[a], recorder.outcomes[recorder.order[a]])
    {
      stages := stages + [Stage(recorder.order[k], recorder.outcomes[recorder.order[k]])];
    }
    ListedStagesAreBest(actions, stages);
  }

  /** Action `i` is a successful answer with text, to a call id whose latest opening,
      at `j`, was of `skill`. */
  ghost predicate LoadedBy(actions: seq<Action>, i: nat, j: nat, skill: string) {
    && i < |actions| && actions[i].Answer? && !actions[i].isError && actions[i].hasBody
    && StandsFor(actions, i, j, actions[i].id, skill)
  }

  /** Action `i` is a failed answer to a call id whose latest opening, at `j`, was of `skill`. */
  ghost predicate RefusedBy(actions: seq<Action>, i: nat, j: nat, skill: string) {
    i < |actions| && actions[i].Answer? && actions[i].isError && StandsFor(actions, i, j, actions[i].id, skill)
  }

  /** A skill is reported as not delivered exactly when some answer failed and none
      succeeded with text. */
  lemma {:induction false} NotDeliveredIff(actions: seq<Action>, skill: string, outcome: Outcome)
    requires IsBest(actions, |actions|, skill, outcome)
    ensures outcome == NotDelivered <==>
            && (exists i: nat, j: nat :: RefusedBy(actions, i, j, skill))
            && !(exists i: nat, j: nat :: LoadedBy(actions, i, j, skill))
  {
    LoadedIff(actions, skill, outcome);
    if outcome == NotDelivered {
      var i :| 0 <= i < |actions| && Shows(actions, i, skill, NotDelivered);
      var j: nat :| StandsFor(actions, i, j, actions[i].id, skill);
      assert RefusedBy(actions, i, j, skill);
    }
    if i: nat, j: nat :| RefusedBy(actions, i, j, skill) {
      assert Shows(actions, i, skill, NotDelivered);
      assert ShownBy(actions, |actions|, skill, NotDelivered);
      assert Priority(NotDelivered) > Priority(Attempted);
    }
  }

  /** A skill is reported as loaded exactly when some such answer exists. */
  lemma {:induction false} LoadedIff(actions: seq<Action>, skill: string, outcome: Outcome)
    requires IsBest(actions, |actions|, skill, outcome)
    ensures outcome == Loaded <==> exists i: nat, j: nat :: LoadedBy(actions, i, j, skill)
  {
    if outcome == Loaded {
      var i :| 0 <= i < |actions| && Shows(actions, i, skill, Loaded);
      var j: nat :| StandsFor(actions, i, j, actions[i].id, skill);
      assert LoadedBy(actions, i, j, skill);
    }
    if exists i: nat, j: nat :: LoadedBy(actions, i, j, skill) {
      var i: nat, j: nat :| LoadedBy(actions, i, j, skill);
      assert Shows(actions, i, skill, Loaded);
      assert ShownBy(actions, |actions|, skill, Loaded);
      assert Priority(Loaded) > Priority(NotDelivered) && Priority(Loaded) > Priority(Attempted);
    }
  }
}
