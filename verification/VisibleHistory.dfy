/** The visible history of a session and its audit (omp_admission.ts).

    A retained session may only grow: every user or assistant text that an
    admitted model call showed must still be there, in order, at the next
    call.  The audit scans greedily; this module shows that the scan is exact
    and that the relation it decides is a preorder, which is what lets a
    chain of audits speak about any two calls. */
module VisibleHistory {
  import opened Prelude

  datatype Speaker = User | Assistant

  datatype Turn = Turn(role: Speaker, text: string)

  datatype Block = TextBlock(text: string) | OtherBlock

  datatype Content = Plain(text: string) | Blocks(blocks: seq<Block>) | NoContent

  /** A message of the provider context or of the session state.  `Opaque` is an
      entry that is not an object or has any other role. */
  datatype Message =
    | Opaque
    | UserMessage(content: Content)
    | AssistantMessage(content: Content, model: Option<string>)

  /** The visible projection: turns in order, and the last model named. */
  datatype Prefix = Prefix(turns: seq<Turn>, model: Option<string>)

  datatype Verdict = Retained | Refused(reason: AuditReason)

  datatype AuditReason = Compaction | Truncation | ModelSwitch

  // ---------- The projection ----------
  // Scans are specified by what they have produced after the first `n` entries.

  function BlockTexts(blocks: seq<Block>, n: nat): seq<string>
    requires n <= |blocks|
  {
    if n == 0 then []
    else BlockTexts(blocks, n - 1) + (if blocks[n - 1].TextBlock? then [blocks[n - 1].text] else [])
  }

  /** The texts of a content value; an empty plain string counts as no text. */
  function TextsOf(content: Content): seq<string> {
    match content
    case Plain(text) => if text == "" then [] else [text]
    case Blocks(blocks) => BlockTexts(blocks, |blocks|)
    case NoContent => []
  }

  function Spoken(role: Speaker, texts: seq<string>, n: nat): seq<Turn>
    requires n <= |texts|
  {
    if n == 0 then [] else Spoken(role, texts, n - 1) + [Turn(role, texts[n - 1])]
  }

  function TurnsOfMessage(message: Message): seq<Turn> {
    match message
    case Opaque => []
    case UserMessage(content) => Spoken(User, TextsOf(content), |TextsOf(content)|)
    case AssistantMessage(content, _) => Spoken(Assistant, TextsOf(content), |TextsOf(content)|)
  }

  function TurnsUpTo(messages: seq<Message>, n: nat): seq<Turn>
    requires n <= |messages|
  {
    if n == 0 then [] else TurnsUpTo(messages, n - 1) + TurnsOfMessage(messages[n - 1])
  }

  function TurnsOf(messages: seq<Message>): seq<Turn> {
    TurnsUpTo(messages, |messages|)
  }

  predicate NamesModel(message: Message) {
    message.AssistantMessage? && message.model.Some? && message.model.value != ""
  }

  function ModelUpTo(messages: seq<Message>, n: nat): Option<string>
    requires n <= |messages|
  {
    if n == 0 then None
    else if NamesModel(messages[n - 1]) then messages[n - 1].model
    else ModelUpTo(messages, n - 1)
  }

  function ModelOf(messages: seq<Message>): Option<string> {
    ModelUpTo(messages, |messages|)
  }

  function PrefixOf(messages: seq<Message>): Prefix {
    Prefix(TurnsOf(messages), ModelOf(messages))
  }

  method VisiblePrefixFromMessages(messages: seq<Message>) returns (prefix: Prefix)
    ensures prefix == PrefixOf(messages)
  {
    var turns: seq<Turn> := [];
    var model: Option<string> := None;
    for i := 0 to |messages|
      invariant turns == TurnsUpTo(messages, i)
      invariant model == ModelUpTo(messages, i)
    {
      turns := turns + TurnsOfMessage(messages[i]);
      if NamesModel(messages[i]) {
        model := messages[i].model;
      }
    }
    prefix := Prefix(turns, model);
  }

  lemma {:induction false} ProjectionOfExtension(messages: seq<Message>, more: seq<Message>, n: nat)
    requires n <= |messages|
    ensures TurnsUpTo(messages + more, n) == TurnsUpTo(messages, n)
    ensures ModelUpTo(messages + more, n) == ModelUpTo(messages, n)
  {
    if n > 0 {
      ProjectionOfExtension(messages, more, n - 1);
    }
  }

  lemma {:induction false} ProjectionOfSnoc(messages: seq<Message>, last: Message)
    ensures TurnsOf(messages + [last]) == TurnsOf(messages) + TurnsOfMessage(last)
    ensures ModelOf(messages + [last]) == if NamesModel(last) then last.model else ModelOf(messages)
  {
    ProjectionOfExtension(messages, [last], |messages|);
  }

  // ----- What is visible -----

  lemma {:induction false} BlockTextsAppend(a: seq<Block>, b: seq<Block>, n: nat)
    requires n <= |b|
    ensures BlockTexts(a + b, |a| + n) == BlockTexts(a, |a|) + BlockTexts(b, n)
  {
    if n > 0 {
      BlockTextsAppend(a, b, n - 1);
    } else {
      BlockTextsPrefix(a, b, |a|);
    }
  }

  lemma {:induction false} BlockTextsPrefix(a: seq<Block>, b: seq<Block>, n: nat)
    requires n <= |a|
    ensures BlockTexts(a + b, n) == BlockTexts(a, n)
  {
    if n > 0 {
      BlockTextsPrefix(a, b, n - 1);
    }
  }

  lemma {:induction false} SpokenAppend(role: Speaker, a: seq<string>, b: seq<string>, n: nat)
    requires n <= |b|
    ensures Spoken(role, a + b, |a| + n) == Spoken(role, a, |a|) + Spoken(role, b, n)
  {
    if n > 0 {
      SpokenAppend(role, a, b, n - 1);
    } else {
      SpokenPrefix(role, a, b, |a|);
    }
  }

  lemma {:induction false} SpokenPrefix(role: Speaker, a: seq<string>, b: seq<string>, n: nat)
    requires n <= |a|
    ensures Spoken(role, a + b, n) == Spoken(role, a, n)
  {
    if n > 0 {
      SpokenPrefix(role, a, b, n - 1);
    }
  }

  /** The message of a user or of an assistant. */
  function Said(role: Speaker, content: Content, model: Option<string>): Message {
    if role == User then UserMessage(content) else AssistantMessage(content, model)
  }

  /** A history shows what its parts show, one after the other. */
  lemma {:induction false} HistoriesAdd(a: seq<Message>, b: seq<Message>)
    ensures TurnsOf(a + b) == TurnsOf(a) + TurnsOf(b)
  {
    TurnsAppend(a, b, |b|);
  }

  /** What one message shows: a text block and a plain text one turn each; an empty plain
      text, any other block, no content and an opaque entry nothing. */
  lemma {:induction false} MessageShows(role: Speaker, model: Option<string>, text: string)
    ensures TurnsOf([]) == [] && TurnsOf([Opaque]) == [] && TurnsOf([Said(role, NoContent, model)]) == []
    ensures TurnsOf([Said(role, Plain(text), model)]) == if text == "" then [] else [Turn(role, text)]
    ensures TurnsOf([Said(role, Blocks([TextBlock(text)]), model)]) == [Turn(role, text)]
    ensures TurnsOf([Said(role, Blocks([OtherBlock]), model)]) == TurnsOf([Said(role, Blocks([]), model)]) == []
  {
    OneMessage(Opaque);
    OneMessage(Said(role, NoContent, model));
    OneMessage(Said(role, Plain(text), model));
    OneText(role, text);
    BlocksShow(role, model, [OtherBlock]);
    BlocksShow(role, model, [TextBlock(text)]);
    BlocksShow(role, model, []);
    OneBlock(OtherBlock);
    OneBlock(TextBlock(text));
  }

  lemma {:induction false} BothSpoken(role: Speaker, x: seq<Block>, y: seq<Block>, blocks: seq<Block>,
                                      first: seq<string>, second: seq<string>)
    requires blocks == x + y && first == BlockTexts(x, |x|) && second == BlockTexts(y, |y|)
    ensures var both := BlockTexts(blocks, |blocks|);
            Spoken(role, both, |both|) == Spoken(role, first, |first|) + Spoken(role, second, |second|)
  {
    BlockTextsAppend(x, y, |y|);
    SpokenAppend(role, first, second, |second|);
  }

  /** A message with many blocks shows what its parts show, one after the other. */
  lemma {:induction false} BlocksAdd(role: Speaker, model: Option<string>, x: seq<Block>, y: seq<Block>)
    ensures TurnsOf([Said(role, Blocks(x + y), model)]) ==
            TurnsOf([Said(role, Blocks(x), model)]) + TurnsOf([Said(role, Blocks(y), model)])
  {
    BlocksShow(role, model, x);
    BlocksShow(role, model, y);
    BlocksShow(role, model, x + y);
    BothSpoken(role, x, y, x + y, BlockTexts(x, |x|), BlockTexts(y, |y|));
  }

  lemma {:induction false} OneMessage(message: Message)
    ensures TurnsOf([message]) == TurnsOfMessage(message)
  {
    assert TurnsUpTo([message], 1) == TurnsUpTo([message], 0) + TurnsOfMessage(message);
  }

  lemma {:induction false} BlocksShow(role: Speaker, model: Option<string>, blocks: seq<Block>)
    ensures TurnsOf([Said(role, Blocks(blocks), model)]) ==
            Spoken(role, BlockTexts(blocks, |blocks|), |BlockTexts(blocks, |blocks|)|)
  {
    OneMessage(Said(role, Blocks(blocks), model));
  }

  lemma {:induction false} OneBlock(block: Block)
    ensures BlockTexts([block], 1) == if block.TextBlock? then [block.text] else []
  {
    assert BlockTexts([block], 1) ==
           BlockTexts([block], 0) + (if [block][0].TextBlock? then [[block][0].text] else []);
  }

  lemma {:induction false} OneText(role: Speaker, text: string)
    ensures Spoken(role, [text], 1) == [Turn(role, text)]
  {
    assert Spoken(role, [text], 1) == Spoken(role, [text], 0) + [Turn(role, [text][0])];
  }

  lemma {:induction false} TurnsAppend(a: seq<Message>, b: seq<Message>, n: nat)
    requires n <= |b|
    ensures TurnsUpTo(a + b, |a| + n) == TurnsOf(a) + TurnsUpTo(b, n)
  {
    if n > 0 {
      TurnsAppend(a, b, n - 1);
    } else {
      ProjectionOfExtension(a, b, |a|);
    }
  }

  lemma {:induction false} ModelUpToIff(messages: seq<Message>, n: nat, model: string)
    requires n <= |messages|
    ensures ModelUpTo(messages, n) == Some(model) <==>
            && model != ""
            && (exists k :: 0 <= k < n && messages[k].AssistantMessage? && messages[k].model == Some(model)
                            && (forall j :: k < j < n && messages[j].AssistantMessage? ==>
                              messages[j].model == None || messages[j].model == Some("")))
  {
    if n > 0 {
      ModelUpToIff(messages, n - 1, model);
    }
  }

  /** The model of a history is the last one that an assistant message names. */
  lemma {:induction false} ModelIff(messages: seq<Message>, model: string)
    ensures ModelOf(messages) == Some(model) <==>
            && model != ""
            && (exists k :: 0 <= k < |messages| && messages[k].AssistantMessage? && messages[k].model == Some(model)
                            && (forall j :: k < j < |messages| && messages[j].AssistantMessage? ==>
                              messages[j].model == None || messages[j].model == Some("")))
  {
    ModelUpToIff(messages, |messages|, model);
  }

  // ---------- Ordered retention ----------

  /** Greedy matching of `previous` from `i` on against `current` from `j` on. */
  predicate Matches(previous: seq<Turn>, current: seq<Turn>, i: nat, j: nat)
    requires i <= |previous| && j <= |current|
    decreases |current| - j
  {
    if i == |previous| then true
    else if j == |current| then false
    else if previous[i] == current[j] then Matches(previous, current, i + 1, j + 1)
    else Matches(previous, current, i, j + 1)
  }

  predicate Retains(previous: seq<Turn>, current: seq<Turn>) {
    Matches(previous, current, 0, 0)
  }

  /** `at[i]` is a position of `current` holding `previous[i]`, and positions increase. */
  ghost predicate IsEmbedding(previous: seq<Turn>, current: seq<Turn>, at: seq<nat>) {
    && |at| == |previous|
    && (forall i :: 0 <= i < |at| ==> at[i] < |current| && current[at[i]] == previous[i])
    && (forall i, j :: 0 <= i < j < |at| ==> at[i] < at[j])
  }

  ghost predicate Embeds(previous: seq<Turn>, current: seq<Turn>) {
    exists at: seq<nat> :: IsEmbedding(previous, current, at)
  }

  lemma {:induction false} EmbeddingOfGreedy(previous: seq<Turn>, current: seq<Turn>, i: nat,
                                             j: nat) returns (at: seq<nat>)
    requires i <= |previous| && j <= |current| && Matches(previous, current, i, j)
    ensures |at| == |previous| - i
    ensures forall k :: 0 <= k < |at| ==> j <= at[k] < |current| && current[at[k]] == previous[i + k]
    ensures forall k, l :: 0 <= k < l < |at| ==> at[k] < at[l]
    decreases |current| - j
  {
    if i == |previous| {
      at := [];
    } else if previous[i] == current[j] {
      var rest := EmbeddingOfGreedy(previous, current, i + 1, j + 1);
      at := [j] + rest;
    } else {
      at := EmbeddingOfGreedy(previous, current, i, j + 1);
    }
  }

  lemma {:induction false} GreedyFindsEmbedding(previous: seq<Turn>, current: seq<Turn>, at: seq<nat>, i: nat, j: nat)
    requires IsEmbedding(previous, current, at) && i <= |previous| && j <= |current|
    requires i < |previous| ==> at[i] >= j
    ensures Matches(previous, current, i, j)
    decreases |current| - j
  {
    if i < |previous| {
      if previous[i] == current[j] {
        GreedyFindsEmbedding(previous, current, at, i + 1, j + 1);
      } else {
        GreedyFindsEmbedding(previous, current, at, i, j + 1);
      }
    }
  }

  /** The greedy scan succeeds exactly when some order-preserving embedding exists. */
  lemma {:induction false} GreedyIsExact(previous: seq<Turn>, current: seq<Turn>)
    ensures Retains(previous, current) <==> Embeds(previous, current)
  {
    if Retains(previous, current) {
      var at := EmbeddingOfGreedy(previous, current, 0, 0);
      assert IsEmbedding(previous, current, at);
    }
    if Embeds(previous, current) {
      var at: seq<nat> :| IsEmbedding(previous, current, at);
      GreedyFindsEmbedding(previous, current, at, 0, 0);
    }
  }

  lemma {:induction false} MatchesItself(turns: seq<Turn>, i: nat)
    requires i <= |turns|
    ensures Matches(turns, turns, i, i)
    decreases |turns| - i
  {
    if i < |turns| { MatchesItself(turns, i + 1); }
  }

  lemma {:induction false} RetainsReflexive(turns: seq<Turn>)
    ensures Retains(turns, turns)
  {
    MatchesItself(turns, 0);
  }

  /** What a later start matches, an earlier start matches. */
  lemma {:induction false} MatchesFromEarlier(a: seq<Turn>, c: seq<Turn>, i: nat, j: nat)
    requires i <= |a| && j < |c| && Matches(a, c, i, j + 1)
    ensures Matches(a, c, i, j)
    decreases |c| - j, 0
  {
    if i < |a| && a[i] == c[j] {
      MatchesFewer(a, c, i, j + 1);
    }
  }

  lemma {:induction false} MatchesFewer(a: seq<Turn>, c: seq<Turn>, i: nat, j: nat)
    requires i < |a| && j <= |c| && Matches(a, c, i, j)
    ensures Matches(a, c, i + 1, j)
    decreases |c| - j, 1
  {
    if a[i] != c[j] {
      MatchesFewer(a, c, i, j + 1);
    }
    MatchesFromEarlier(a, c, i + 1, j);
  }

  lemma {:induction false} MatchesTransitive(a: seq<Turn>, b: seq<Turn>, c: seq<Turn>, i: nat, j: nat, k: nat)
    requires i <= |a| && j <= |b| && k <= |c|
    requires Matches(a, b, i, j) && Matches(b, c, j, k)
    ensures Matches(a, c, i, k)
    decreases |b| - j + |c| - k
  {
    if i < |a| {
      if b[j] != c[k] {
        MatchesTransitive(a, b, c, i, j, k + 1);
        MatchesFromEarlier(a, c, i, k);
      } else if a[i] == b[j] {
        MatchesTransitive(a, b, c, i + 1, j + 1, k + 1);
      } else {
        MatchesTransitive(a, b, c, i, j + 1, k + 1);
        MatchesFromEarlier(a, c, i, k);
      }
    }
  }

  lemma {:induction false} RetainsTransitive(a: seq<Turn>, b: seq<Turn>, c: seq<Turn>)
    requires Retains(a, b) && Retains(b, c)
    ensures Retains(a, c)
  {
    MatchesTransitive(a, b, c, 0, 0, 0);
  }

  lemma {:induction false} MatchesExtended(a: seq<Turn>, c: seq<Turn>, extra: seq<Turn>, i: nat, j: nat)
    requires i <= |a| && j <= |c| && Matches(a, c, i, j)
    ensures Matches(a, c + extra, i, j)
    decreases |c| - j
  {
    if i < |a| {
      MatchesExtended(a, c, extra, if a[i] == c[j] then i + 1 else i, j + 1);
    }
  }

  lemma {:induction false} RetainsExtended(a: seq<Turn>, c: seq<Turn>, extra: seq<Turn>)
    requires Retains(a, c)
    ensures Retains(a, c + extra)
  {
    MatchesExtended(a, c, extra, 0, 0);
  }

  lemma {:induction false} RetainedTurnSurvives(turn: Turn, a: seq<Turn>, c: seq<Turn>)
    requires turn in a && Retains(a, c)
    ensures turn in c
  {
    var at := EmbeddingOfGreedy(a, c, 0, 0);
    var k :| 0 <= k < |a| && a[k] == turn;
    assert c[at[k]] == turn;
  }

  /** The nested cursor loop of the audit. */
  method RetainsOrderedTurns(previous: seq<Turn>, current: seq<Turn>) returns (retained: bool)
    ensures retained <==> Embeds(previous, current)
  {
    GreedyIsExact(previous, current);
    var cursor := 0;
    for k := 0 to |previous|
      invariant 0 <= cursor <= |current|
      invariant Retains(previous, current) <==> Matches(previous, current, k, cursor)
    {
      var turn := previous[k];
      var i := cursor;
      while i < |current| && current[i] != turn
        invariant cursor <= i <= |current|
        invariant Retains(previous, current) <==> Matches(previous, current, k, i)
      {
        i := i + 1;
      }
      if i == |current| {
        return false;
      }
      cursor := i + 1;
    }
    retained := true;
  }

  // ---------- The audit ----------

  /** The record key under which the audit remembers a turn. */
  function Key(turn: Turn): string {
    (if turn.role == User then "user" else "assistant") + ":" + turn.text
  }

  /** Keys identify turns, so looking up keys is looking up turns. */
  lemma {:induction false} KeyIdentifiesTurn(a: Turn, b: Turn)
    ensures Key(a) == Key(b) <==> a == b
  {
    if Key(a) == Key(b) {
      assert Key(a)[0] == Key(b)[0];
      var cut := if a.role == User then 5 else 10;
      assert Key(a)[cut..] == a.text;
      assert Key(b)[cut..] == b.text;
    }
  }

  method KeysOf(turns: seq<Turn>) returns (keys: set<string>)
    ensures forall turn: Turn {:trigger Key(turn)} :: Key(turn) in keys <==> turn in turns
  {
    keys := {};
    for i := 0 to |turns|
      invariant forall turn: Turn {:trigger Key(turn)} :: Key(turn) in keys <==> turn in turns[..i]
    {
      forall turn: Turn
        ensures Key(turn) == Key(turns[i]) <==> turn == turns[i]
      {
        KeyIdentifiesTurn(turn, turns[i]);
      }
      keys := keys + {Key(turns[i])};
      assert turns[..i + 1] == turns[..i] + [turns[i]];
    }
    assert turns[..|turns|] == turns;
  }

  predicate ModelsConflict(a: Option<string>, b: Option<string>) {
    a.Some? && a.value != "" && b.Some? && b.value != "" && a != b
  }

  ghost predicate HasNovelTurn(previous: seq<Turn>, current: seq<Turn>) {
    exists i :: 0 <= i < |current| && current[i] !in previous
  }

  /** What the audit promises about a context that follows `previous`. */
  ghost function AuditSpec(previous: Prefix, current: seq<Message>): Verdict {
    if ModelsConflict(previous.model, ModelOf(current)) then Refused(ModelSwitch)
    else if Embeds(previous.turns, TurnsOf(current)) then Retained
    else if HasNovelTurn(previous.turns, TurnsOf(current)) then Refused(Compaction)
    else Refused(Truncation)
  }

  method AuditVisibleHistory(previous: Prefix, current: seq<Message>) returns (verdict: Verdict)
    ensures verdict == AuditSpec(previous, current)
    ensures verdict == Refused(ModelSwitch) <==>
            var now := ModelOf(current);
            previous.model.Some? && now.Some? && previous.model.value != "" && now.value != "" && previous.model != now
  {
    var now := VisiblePrefixFromMessages(current);
    if ModelsConflict(previous.model, now.model) {
      return Refused(ModelSwitch);
    }
    var kept := RetainsOrderedTurns(previous.turns, now.turns);
    if kept {
      return Retained;
    }
    var retained := KeysOf(previous.turns);
    var novel := false;
    for i := 0 to |now.turns|
      invariant novel <==> exists j :: 0 <= j < i && now.turns[j] !in previous.turns
    {
      novel := novel || Key(now.turns[i]) !in retained;
    }
    verdict := Refused(if novel then Compaction else Truncation);
  }

  /** A refusal for lost history names `truncation` exactly when every current turn
      was already known, and the known turns are then really missing or reordered. */
  lemma {:induction false} TruncationMeansPureLoss(previous: Prefix, current: seq<Message>)
    ensures AuditSpec(previous, current) == Refused(Truncation) <==>
            && !ModelsConflict(previous.model, ModelOf(current))
            && !Retains(previous.turns, TurnsOf(current))
            && (forall turn :: turn in TurnsOf(current) ==> turn in previous.turns)
  {
    GreedyIsExact(previous.turns, TurnsOf(current));
    var now := TurnsOf(current);
    if forall turn :: turn in now ==> turn in previous.turns {
      assert !HasNovelTurn(previous.turns, now);
    }
  }
}
