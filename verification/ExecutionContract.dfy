/** The shared contract of execution plans and evidence summaries
    (_execution_contract.py) and the plan normalizer that must satisfy it
    (courses/execution.py). */
module ExecutionContract {
  import opened Patterns
  import opened Prelude
  import opened Text

  const CAPTURE_MAX_BYTES := 16 * 1024 * 1024
  const CAPTURE_TOTAL_MAX_BYTES := 64 * 1024 * 1024
  const EXECUTION_SCHEMA := "yacht.execution.v1"
  const CONTROLLED_OMP_VERSION := "18.2.6"

  // ---------- Grammars ----------

  predicate IsAlphanumeric(c: char) {
    'A' <= c <= 'Z' || 'a' <= c <= 'z' || '0' <= c <= '9'
  }

  predicate IsTurnId(s: string) {
    && 1 <= |s| <= 64
    && IsAlphanumeric(s[0])
    && (forall i :: 0 <= i < |s| ==> IsAlphanumeric(s[i]) || s[i] == '_' || s[i] == '-')
  }

  /** A turn id, a dash and a canonical index; the regular expression backtracks
      over every dash. */
  predicate IsCaptureId(s: string) {
    exists cut :: 0 <= cut < |s| && s[cut] == '-' && IsTurnId(s[..cut]) && IsCanonicalDecimal(s[cut + 1..])
  }

  predicate IsHex(s: string) {
    forall i :: 0 <= i < |s| ==> '0' <= s[i] <= '9' || 'a' <= s[i] <= 'f'
  }

  predicate IsSha256(s: string) {
    |s| == 64 && IsHex(s)
  }

  // ----- The published regular expressions -----

  const ALPHANUMERIC: Class := [('A', 'Z'), ('a', 'z'), ('0', '9')]
  const WORD: Class := [('A', 'Z'), ('a', 'z'), ('0', '9'), ('_', '_'), ('-', '-')]
  const DIGITS: Class := [('0', '9')]
  const TURN_ID_PATTERN := Then(One(ALPHANUMERIC), Repeat(WORD, 0, Some(63)))
  const INDEX_PATTERN := Or(One([('0', '0')]), Then(One([('1', '9')]), Repeat(DIGITS, 0, None)))
  const CAPTURE_ID_PATTERN := Then(TURN_ID_PATTERN, Then(One([('-', '-')]), INDEX_PATTERN))
  const SHA256_PATTERN := Repeat([('0', '9'), ('a', 'f')], 64, Some(64))

  lemma {:induction false} ClassesAre(c: char)
    ensures InClass(c, ALPHANUMERIC) <==> IsAlphanumeric(c)
    ensures InClass(c, WORD) <==> IsAlphanumeric(c) || c == '_' || c == '-'
    ensures InClass(c, DIGITS) <==> IsDigit(c)
    ensures InClass(c, [('0', '9'), ('a', 'f')]) <==> '0' <= c <= '9' || 'a' <= c <= 'f'
  {
    assert ALPHANUMERIC[0] == ('A', 'Z') && ALPHANUMERIC[1] == ('a', 'z') && ALPHANUMERIC[2] == ('0', '9');
    assert WORD[0] == ('A', 'Z') && WORD[1] == ('a', 'z') && WORD[2] == ('0', '9');
    assert WORD[3] == ('_', '_') && WORD[4] == ('-', '-') && DIGITS[0] == ('0', '9');
    var hex := [('0', '9'), ('a', 'f')];
    assert hex[0] == ('0', '9') && hex[1] == ('a', 'f');
  }

  lemma {:induction false} ClassOfOne(c: char, low: char, high: char)
    ensures InClass(c, [(low, high)]) <==> low <= c <= high
  {
    assert [(low, high)][0] == (low, high);
  }

  /** The turn ids are exactly the matches of their regular expression. */
  lemma {:induction false} TurnIdIff(s: string)
    ensures IsTurnId(s) <==> Matches(TURN_ID_PATTERN, s)
  {
    FirstCharacter(ALPHANUMERIC, Repeat(WORD, 0, Some(63)), s);
    forall i | 0 <= i < |s|
      ensures InClass(s[i], ALPHANUMERIC) <==> IsAlphanumeric(s[i])
      ensures InClass(s[i], WORD) <==> IsAlphanumeric(s[i]) || s[i] == '_' || s[i] == '-'
    {
      ClassesAre(s[i]);
    }
    if s != "" {
      var rest := s[1..];
      assert forall i :: 0 <= i < |rest| ==> rest[i] == s[i + 1];
      assert forall i :: 1 <= i < |s| ==> s[i] == rest[i - 1];
    }
  }

  lemma {:induction false} IndexIff(s: string)
    ensures IsCanonicalDecimal(s) <==> Matches(INDEX_PATTERN, s)
  {
    FirstCharacter([('1', '9')], Repeat(DIGITS, 0, None), s);
    forall i | 0 <= i < |s|
      ensures InClass(s[i], DIGITS) <==> IsDigit(s[i])
      ensures InClass(s[i], [('0', '0')]) <==> s[i] == '0'
      ensures InClass(s[i], [('1', '9')]) <==> '1' <= s[i] <= '9'
    {
      ClassesAre(s[i]);
      ClassOfOne(s[i], '0', '0');
      ClassOfOne(s[i], '1', '9');
    }
    if s != "" {
      var rest := s[1..];
      assert forall i :: 0 <= i < |rest| ==> rest[i] == s[i + 1];
      assert forall i :: 1 <= i < |s| ==> s[i] == rest[i - 1];
    }
  }

  /** A capture id may be cut at any of its dashes: the test that tries them all accepts
      exactly the matches of the regular expression. */
  lemma {:induction false} CaptureIdIff(s: string)
    ensures IsCaptureId(s) <==> Matches(CAPTURE_ID_PATTERN, s)
  {
    var dashed := Then(One([('-', '-')]), INDEX_PATTERN);
    forall cut | 0 <= cut <= |s|
      ensures Matches(TURN_ID_PATTERN, s[..cut]) <==> IsTurnId(s[..cut])
      ensures Matches(dashed, s[cut..]) <==> cut < |s| && s[cut] == '-' && IsCanonicalDecimal(s[cut + 1..])
    {
      TurnIdIff(s[..cut]);
      FirstCharacter([('-', '-')], INDEX_PATTERN, s[cut..]);
      if cut < |s| {
        assert s[cut..][1..] == s[cut + 1..];
        ClassOfOne(s[cut], '-', '-');
        IndexIff(s[cut + 1..]);
      }
    }
    assert CAPTURE_ID_PATTERN == Then(TURN_ID_PATTERN, dashed);
    if cut :| 0 <= cut <= |s| && Matches(TURN_ID_PATTERN, s[..cut]) && Matches(dashed, s[cut..]) {
      assert cut < |s| && s[cut] == '-' && IsTurnId(s[..cut]) && IsCanonicalDecimal(s[cut + 1..]);
    }
    if cut :| 0 <= cut < |s| && s[cut] == '-' && IsTurnId(s[..cut]) && IsCanonicalDecimal(s[cut + 1..]) {
      assert Matches(TURN_ID_PATTERN, s[..cut]) && Matches(dashed, s[cut..]);
    }
  }

  lemma {:induction false} Sha256Iff(s: string)
    ensures IsSha256(s) <==> Matches(SHA256_PATTERN, s)
  {
    forall i | 0 <= i < |s|
      ensures InClass(s[i], [('0', '9'), ('a', 'f')]) <==> '0' <= s[i] <= '9' || 'a' <= s[i] <= 'f'
    {
      ClassesAre(s[i]);
    }
  }

  predicate PlainComponents(parts: seq<string>) {
    forall i :: 0 <= i < |parts| ==> parts[i] != "" && parts[i] != "." && parts[i] != ".."
  }

  predicate IsRelativePosixPath(s: string) {
    s != "" && s[0] != '/' && '\\' !in s && '\0' !in s && PlainComponents(Split(s, '/'))
  }

  /** The weaker test that the capture reader applies to the same path. */
  predicate IsSafeRelativePath(s: string) {
    s != "" && s[0] != '/' && '\\' !in s && PlainComponents(Split(s, '/'))
  }

  /** A path that passes the contract is never refused as unsafe by the reader, and
      the reader's test falls short of the contract only on NUL. */
  lemma {:induction false} ReaderTestIsContractWithoutNul(s: string)
    ensures IsRelativePosixPath(s) <==> IsSafeRelativePath(s) && '\0' !in s
  {
  }

  /** An accepted path stays below the directory it is resolved against: it is the
      join of its components, none of which is empty, `.` or `..`. */
  lemma {:induction false} AcceptedPathDescends(s: string)
    requires IsRelativePosixPath(s)
    ensures Join(Split(s, '/'), '/') == s && PlainComponents(Split(s, '/'))
    ensures forall i :: 0 <= i < |Split(s, '/')| ==> '/' !in Split(s, '/')[i]
  {
    JoinSplit(s, '/');
    PartsHaveNoSeparator(s, '/');
  }

  /** A component that can only descend. */
  ghost predicate Descends(part: string) {
    part != "" && part != "." && part != ".." && '/' !in part && '\\' !in part && '\0' !in part
  }

  /** The accepted paths are exactly the joins of components that can only descend. */
  lemma {:induction false} AcceptedPathIff(s: string)
    ensures IsRelativePosixPath(s) <==>
            exists parts :: parts != [] && Join(parts, '/') == s && forall i :: 0 <= i < |parts| ==> Descends(parts[i])
  {
    var split := Split(s, '/');
    if IsRelativePosixPath(s) {
      AcceptedPathDescends(s);
      forall i | 0 <= i < |split|
        ensures Descends(split[i])
      {
        JoinHolds(split, '/', i);
      }
    }
    forall parts | parts != [] && Join(parts, '/') == s && forall i :: 0 <= i < |parts| ==> Descends(parts[i])
      ensures IsRelativePosixPath(s)
    {
      assert Descends(parts[0]);
      SplitIff(s, '/', parts);
      JoinAvoids(parts, '/', '\\');
      JoinAvoids(parts, '/', '\0');
      assert s[0] == parts[0][0];
    }
  }

  // ---------- Derived names ----------

  function CaptureName(after: string, index: nat): string {
    after + "-" + Decimal(index)
  }

  function ArtifactName(after: string, index: nat, digest: string): string
    requires IsSha256(digest)
  {
    CaptureName(after, index) + "-" + digest[..12]
  }

  lemma {:induction false} CaptureNameIsCaptureId(after: string, index: nat)
    requires IsTurnId(after)
    ensures IsCaptureId(CaptureName(after, index))
  {
    var name := CaptureName(after, index);
    DecimalIsCanonical(index);
    assert name[..|after|] == after && name[|after| + 1..] == Decimal(index);
  }

  /** Capture ids never collide, although turn ids may themselves end in `-3`. */
  lemma {:induction false} CaptureNameInjective(a: string, i: nat, b: string, j: nat)
    requires CaptureName(a, i) == CaptureName(b, j)
    ensures a == b && i == j
  {
    LastCutUnique(a, Decimal(i), b, Decimal(j));
    DecimalInjective(i, j);
  }

  /** Artifact files never overwrite each other, whatever bytes were captured. */
  lemma {:induction false} ArtifactNameInjective(a: string, i: nat, x: string, b: string, j: nat, y: string)
    requires IsSha256(x) && IsSha256(y) && ArtifactName(a, i, x) == ArtifactName(b, j, y)
    ensures a == b && i == j && x[..12] == y[..12]
  {
    LastCutUnique(CaptureName(a, i), x[..12], CaptureName(b, j), y[..12]);
    CaptureNameInjective(a, i, b, j);
  }

  // ---------- Plans ----------

  datatype Limits = Limits(maxTurns: int, messageTimeout: int, timeout: int)

  datatype PlanTurn = PlanTurn(id: string, instruction: string)

  datatype PlanCapture = PlanCapture(id: string, after: string, path: string, maxBytes: int)

  datatype Plan =
    | Single(limits: Limits)
    | Retained(limits: Limits, initialTurnId: string, turns: seq<PlanTurn>, captures: seq<PlanCapture>)

  datatype PlanFault = BadLimit | BadInitial | BadTurn(turn: nat) | BadCapture(capture: nat) | TooManyBytes

  predicate PositiveLimits(limits: Limits) {
    limits.maxTurns >= 1 && limits.messageTimeout >= 1 && limits.timeout >= 1
  }

  predicate ValidTurn(turn: PlanTurn) {
    IsTurnId(turn.id) && NonBlank(turn.instruction)
  }

  /** No turn id, the initial one included, is used twice. */
  predicate DistinctTurns(initial: string, turns: seq<PlanTurn>) {
    && (forall i :: 0 <= i < |turns| ==> turns[i].id != initial)
    && (forall i, j :: 0 <= i < j < |turns| ==> turns[i].id != turns[j].id)
  }

  predicate NamesTurn(initial: string, turns: seq<PlanTurn>, id: string) {
    id == initial || exists i :: 0 <= i < |turns| && turns[i].id == id
  }

  predicate ValidCapture(initial: string, turns: seq<PlanTurn>, capture: PlanCapture, index: nat) {
    && IsTurnId(capture.after)
    && NamesTurn(initial, turns, capture.after)
    && IsRelativePosixPath(capture.path)
    && 1 <= capture.maxBytes <= CAPTURE_MAX_BYTES
    && capture.id == CaptureName(capture.after, index)
  }

  function PairOf(capture: PlanCapture): (string, string) {
    (capture.after, capture.path)
  }

  predicate DistinctCaptures(captures: seq<PlanCapture>) {
    forall i, j :: 0 <= i < j < |captures| ==> PairOf(captures[i]) != PairOf(captures[j])
  }

  function TotalBytes(captures: seq<PlanCapture>, n: nat): int
    requires n <= |captures|
  {
    if n == 0 then 0 else TotalBytes(captures, n - 1) + captures[n - 1].maxBytes
  }

  predicate AllTurnsValid(turns: seq<PlanTurn>) {
    forall i :: 0 <= i < |turns| ==> ValidTurn(turns[i])
  }

  predicate AllCapturesValid(initial: string, turns: seq<PlanTurn>, captures: seq<PlanCapture>) {
    forall i :: 0 <= i < |captures| ==> ValidCapture(initial, turns, captures[i], i)
  }

  predicate ValidPlan(plan: Plan) {
    && PositiveLimits(plan.limits)
    && (plan.Retained? ==>
      && IsTurnId(plan.initialTurnId) && AllTurnsValid(plan.turns)
      && DistinctTurns(plan.initialTurnId, plan.turns)
      && AllCapturesValid(plan.initialTurnId, plan.turns, plan.captures)
      && DistinctCaptures(plan.captures)
      && TotalBytes(plan.captures, |plan.captures|) <= CAPTURE_TOTAL_MAX_BYTES)
  }

  method ValidateTurns(initial: string, turns: seq<PlanTurn>) returns (fault: Option<PlanFault>, seen: set<string>)
    ensures fault.None? <==> DistinctTurns(initial, turns) && forall i :: 0 <= i < |turns| ==> ValidTurn(turns[i])
    ensures fault.Some? ==> fault.value.BadTurn? && fault.value.turn < |turns|
    ensures fault.None? ==> forall id :: id in seen <==> NamesTurn(initial, turns, id)
  {
    seen := {initial};
    for index := 0 to |turns|
      invariant DistinctTurns(initial, turns[..index])
      invariant forall i :: 0 <= i < index ==> ValidTurn(turns[i])
      invariant forall id :: id in seen <==> NamesTurn(initial, turns[..index], id)
    {
      var turn := turns[index];
      if !IsTurnId(turn.id) || turn.id in seen || !NonBlank(turn.instruction) {
        assert turn.id in seen ==> !DistinctTurns(initial, turns) by {
          if turn.id in seen && turn.id != initial {
            var i :| 0 <= i < index && turns[..index][i].id == turn.id;
            assert turns[i].id == turns[index].id;
          }
        }
        return Some(BadTurn(index)), seen;
      }
      seen := seen + {turn.id};
      assert turns[..index + 1] == turns[..index] + [turn];
      forall id
        ensures NamesTurn(initial, turns[..index + 1], id) <==> NamesTurn(initial, turns[..index], id) || id == turn.id
      {
        if NamesTurn(initial, turns[..index], id) && id != initial {
          var i :| 0 <= i < index && turns[..index][i].id == id;
          assert turns[..index + 1][i].id == id;
        }
        assert turns[..index + 1][index] == turn;
      }
    }
    assert turns[..|turns|] == turns;
    fault := None;
  }

  method ValidateCaptures(initial: string, turns: seq<PlanTurn>, captures: seq<PlanCapture>, seen: set<string>)
    returns (fault: Option<PlanFault>)
    requires forall id :: id in seen <==> NamesTurn(initial, turns, id)
    ensures fault.None? <==>
            && (forall i :: 0 <= i < |captures| ==> ValidCapture(initial, turns, captures[i], i))
            && DistinctCaptures(captures)
            && TotalBytes(captures, |captures|) <= CAPTURE_TOTAL_MAX_BYTES
    ensures fault.Some? ==> fault.value.BadCapture? || fault.value == TooManyBytes
  {
    var pairs: set<(string, string)> := {};
    var total := 0;
    for index := 0 to |captures|
      invariant forall i :: 0 <= i < index ==> ValidCapture(initial, turns, captures[i], i)
      invariant forall i, j :: 0 <= i < j < index ==> PairOf(captures[i]) != PairOf(captures[j])
      invariant pairs == set i | 0 <= i < index :: PairOf(captures[i])
      invariant total == TotalBytes(captures, index)
    {
      var capture := captures[index];
      var pair := PairOf(capture);
      if !IsTurnId(capture.after) || capture.after !in seen || !IsRelativePosixPath(capture.path) {
        assert !ValidCapture(initial, turns, capture, index);
        return Some(BadCapture(index));
      }
      if pair in pairs {
        assert !DistinctCaptures(captures);
        return Some(BadCapture(index));
      }
      pairs := pairs + {pair};
      if !(1 <= capture.maxBytes <= CAPTURE_MAX_BYTES) || capture.id != CaptureName(capture.after, index) {
        assert !ValidCapture(initial, turns, capture, index);
        return Some(BadCapture(index));
      }
      total := total + capture.maxBytes;
    }
    fault := if total > CAPTURE_TOTAL_MAX_BYTES then Some(TooManyBytes) else None;
  }

  /** All turn ids of a retained plan, the initial one first. */
  ghost function IdsOf(plan: Plan): seq<string>
    requires plan.Retained?
  {
    [plan.initialTurnId] + seq(|plan.turns|, i requires 0 <= i < |plan.turns| => plan.turns[i].id)
  }

  /** All ids are turn ids, no two the same, and every later turn has text. */
  ghost predicate SoundTurns(ids: seq<string>, turns: seq<PlanTurn>) {
    && (forall i :: 0 <= i < |ids| ==> IsTurnId(ids[i]))
    && (forall i, j :: 0 <= i < j < |ids| ==> ids[i] != ids[j])
    && (forall i :: 0 <= i < |turns| ==> NonBlank(turns[i].instruction))
  }

  /** Every capture follows a known turn, has a path that descends, 1 byte to 16 MiB and its
      derived id. */
  ghost predicate SoundCaptures(ids: seq<string>, captures: seq<PlanCapture>) {
    forall i :: 0 <= i < |captures| ==>
      && captures[i].after in ids && IsRelativePosixPath(captures[i].path)
      && 1 <= captures[i].maxBytes <= 16 * 1024 * 1024
      && captures[i].id == captures[i].after + "-" + Decimal(i)
  }

  ghost predicate NoneTwice(captures: seq<PlanCapture>) {
    forall i, j :: 0 <= i < j < |captures| ==>
      captures[i].after != captures[j].after || captures[i].path != captures[j].path
  }

  lemma {:induction false} TurnsAreSoundIff(initial: string, turns: seq<PlanTurn>, ids: seq<string>)
    requires ids == [initial] + seq(|turns|, i requires 0 <= i < |turns| => turns[i].id)
    ensures SoundTurns(ids, turns) <==> IsTurnId(initial) && AllTurnsValid(turns) && DistinctTurns(initial, turns)
    ensures forall id :: id in ids <==> NamesTurn(initial, turns, id)
  {
    assert ids[0] == initial && forall i :: 0 <= i < |turns| ==> ids[i + 1] == turns[i].id;
    assert forall i :: 1 <= i < |ids| ==> ids[i] == turns[i - 1].id;
  }

  lemma {:induction false} CapturesAreSoundIff(initial: string, turns: seq<PlanTurn>, ids: seq<string>,
                                               captures: seq<PlanCapture>)
    requires SoundTurns(ids, turns) && forall id :: id in ids <==> NamesTurn(initial, turns, id)
    ensures SoundCaptures(ids, captures) <==> AllCapturesValid(initial, turns, captures)
    ensures NoneTwice(captures) <==> DistinctCaptures(captures)
  {
    forall i | 0 <= i < |captures|
      ensures captures[i].after in ids ==> IsTurnId(captures[i].after)
    {
    }
  }

  /** What makes a plan valid, in the terms of its fields. */
  lemma {:induction false} PlanIsValidIff(plan: Plan)
    ensures ValidPlan(plan) <==>
            && plan.limits.maxTurns >= 1 && plan.limits.messageTimeout >= 1 && plan.limits.timeout >= 1
            && (plan.Retained? ==>
              && SoundTurns(IdsOf(plan), plan.turns)
              && SoundCaptures(IdsOf(plan), plan.captures) && NoneTwice(plan.captures)
              && TotalBytes(plan.captures, |plan.captures|) <= 64 * 1024 * 1024)
  {
    if plan.Retained? {
      var ids := IdsOf(plan);
      TurnsAreSoundIff(plan.initialTurnId, plan.turns, ids);
      if SoundTurns(ids, plan.turns) {
        CapturesAreSoundIff(plan.initialTurnId, plan.turns, ids, plan.captures);
      }
    }
  }

  /** The plan validator accepts exactly the valid plans. */
  method ValidateExecutionPlan(plan: Plan) returns (fault: Option<PlanFault>)
    ensures fault.None? <==> ValidPlan(plan)
  {
    if !PositiveLimits(plan.limits) {
      return Some(BadLimit);
    }
    if plan.Single? {
      return None;
    }
    if !IsTurnId(plan.initialTurnId) {
      return Some(BadInitial);
    }
    var turnFault, seen := ValidateTurns(plan.initialTurnId, plan.turns);
    if turnFault.Some? {
      return turnFault;
    }
    fault := ValidateCaptures(plan.initialTurnId, plan.turns, plan.captures, seen);
  }

  // ---------- The plan normalizer ----------

  /** A capture as a task declares it: its id is derived, never declared. */
  datatype DeclaredCapture = DeclaredCapture(after: string, path: string, maxBytes: int)

  method NormalizeCaptures(declared: seq<DeclaredCapture>) returns (captures: seq<PlanCapture>)
    ensures |captures| == |declared|
    ensures forall i :: 0 <= i < |declared| ==>
              && captures[i].after == declared[i].after && captures[i].path == declared[i].path
              && captures[i].maxBytes == declared[i].maxBytes
              && captures[i].id == CaptureName(declared[i].after, i)
  {
    captures := [];
    for index := 0 to |declared|
      invariant |captures| == index
      invariant forall i :: 0 <= i < index ==>
                              captures[i] == PlanCapture(CaptureName(declared[i].after, i), declared[i].after,
                                                         declared[i].path, declared[i].maxBytes)
    {
      var item := declared[index];
      captures := captures + [PlanCapture(CaptureName(item.after, index), item.after, item.path, item.maxBytes)];
    }
  }

  /** Derived ids always pass the contract's id test, satisfy the public grammar
      and are pairwise distinct, so no valid declaration is refused for its id. */
  lemma {:induction false} DerivedIdsPass(initial: string, turns: seq<PlanTurn>, captures: seq<PlanCapture>)
    requires forall i :: 0 <= i < |captures| ==> captures[i].id == CaptureName(captures[i].after, i)
    requires forall i :: 0 <= i < |captures| ==> IsTurnId(captures[i].after)
    ensures forall i :: 0 <= i < |captures| ==> IsCaptureId(captures[i].id)
    ensures forall i, j :: 0 <= i < j < |captures| ==> captures[i].id != captures[j].id
  {
    forall i | 0 <= i < |captures|
      ensures IsCaptureId(captures[i].id)
    {
      CaptureNameIsCaptureId(captures[i].after, i);
    }
    forall i, j | 0 <= i < j < |captures|
      ensures captures[i].id != captures[j].id
    {
      if captures[i].id == captures[j].id {
        CaptureNameInjective(captures[i].after, i, captures[j].after, j);
      }
    }
  }

  function DeclaredPair(item: DeclaredCapture): (string, string) {
    (item.after, item.path)
  }

  predicate ValidDeclaration(initial: string, turns: seq<PlanTurn>, item: DeclaredCapture) {
    && IsTurnId(item.after) && NamesTurn(initial, turns, item.after)
    && IsRelativePosixPath(item.path) && 1 <= item.maxBytes <= CAPTURE_MAX_BYTES
  }

  function DeclaredBytes(declared: seq<DeclaredCapture>, n: nat): int
    requires n <= |declared|
  {
    if n == 0 then 0 else DeclaredBytes(declared, n - 1) + declared[n - 1].maxBytes
  }

  lemma {:induction false} BytesAgree(declared: seq<DeclaredCapture>, captures: seq<PlanCapture>, n: nat)
    requires n <= |declared| == |captures| && forall i :: 0 <= i < n ==> captures[i].maxBytes == declared[i].maxBytes
    ensures TotalBytes(captures, n) == DeclaredBytes(declared, n)
  {
    if n > 0 {
      BytesAgree(declared, captures, n - 1);
    }
  }

  /** A declaration is refused only for what it declares, never for a derived id. */
  method NormalizeThenValidate(limits: Limits, initial: string, turns: seq<PlanTurn>, declared: seq<DeclaredCapture>)
    returns (fault: Option<PlanFault>, plan: Plan)
    ensures fault.None? <==>
            && PositiveLimits(limits) && IsTurnId(initial) && DistinctTurns(initial, turns)
            && (forall i :: 0 <= i < |turns| ==> ValidTurn(turns[i]))
            && (forall i :: 0 <= i < |declared| ==> ValidDeclaration(initial, turns, declared[i]))
            && (forall i, j :: 0 <= i < j < |declared| ==> DeclaredPair(declared[i]) != DeclaredPair(declared[j]))
            && DeclaredBytes(declared, |declared|) <= CAPTURE_TOTAL_MAX_BYTES
    ensures fault.None? <==> ValidPlan(plan)
  {
    var captures := NormalizeCaptures(declared);
    plan := Retained(limits, initial, turns, captures);
    fault := ValidateExecutionPlan(plan);
    BytesAgree(declared, captures, |declared|);
    CapturesAgree(initial, turns, declared, captures);
  }

  lemma {:induction false} CapturesAgree(initial: string, turns: seq<PlanTurn>, declared: seq<DeclaredCapture>,
                                         captures: seq<PlanCapture>)
    requires |captures| == |declared|
    requires forall i :: 0 <= i < |declared| ==>
               captures[i] == PlanCapture(CaptureName(declared[i].after, i), declared[i].after, declared[i].path,
                                          declared[i].maxBytes)
    ensures (forall i :: 0 <= i < |captures| ==> ValidCapture(initial, turns, captures[i], i)) <==>
            (forall i :: 0 <= i < |declared| ==> ValidDeclaration(initial, turns, declared[i]))
    ensures DistinctCaptures(captures) <==>
            (forall i, j :: 0 <= i < j < |declared| ==> DeclaredPair(declared[i]) != DeclaredPair(declared[j]))
  {
    forall i | 0 <= i < |captures|
      ensures ValidCapture(initial, turns, captures[i], i) <==> ValidDeclaration(initial, turns, declared[i])
      ensures PairOf(captures[i]) == DeclaredPair(declared[i])
    {
    }
  }

  // ---------- Summaries ----------

  datatype Setting =
    | Flag(flag: bool)
    | Words(words: string)
    | Roster(names: seq<string>)
    | Table(entries: map<string, Setting>)
    | Unsupported

  datatype MessageRecord = MessageRecord(
    id: string,
    ended: string,
    startedAt: string,
    finishedAt: string,
    loopsStarted: int,
    loopsCompleted: int,
    continuationPossible: bool,
    usage: Option<map<string, int>>,
    cost: Option<real>)

  datatype CaptureStatus = Missing | Captured | Failed

  datatype CaptureRecord = CaptureRecord(
    id: string,
    after: string,
    path: string,
    status: CaptureStatus,
    bytes: Option<int>,
    sha256: Option<string>,
    artifact: Option<string>,
    error: Option<string>)

  datatype Summary = Summary(
    schema: string,
    mode: string,
    limits: Limits,
    sessionIds: seq<string>,
    messages: seq<MessageRecord>,
    captures: seq<CaptureRecord>,
    valid: bool,
    model: string,
    harness: string,
    harnessVersion: string,
    settings: map<string, Setting>,
    usage: map<string, int>,
    cost: Option<real>,
    ended: string,
    handoff: map<string, string>,
    error: Option<string>)

  predicate IsEnding(s: string) {
    s == "natural" || s == "cap" || s == "timeout" || s == "error"
  }

  predicate ValidSetting(setting: Setting) {
    match setting
    case Flag(_) => true
    case Words(words) => words != ""
    case Roster(names) => forall i :: 0 <= i < |names| ==> names[i] != ""
    case Table(entries) => forall key :: key in entries ==> key != "" && ValidSetting(entries[key])
    case Unsupported => false
  }

  predicate ValidSettings(settings: map<string, Setting>) {
    forall key :: key in settings ==> key != "" && ValidSetting(settings[key])
  }

  /** What is found at a path of table keys. */
  function At(setting: Setting, path: seq<string>): Option<Setting> {
    if path == [] then Some(setting)
    else if setting.Table? && path[0] in setting.entries then At(setting.entries[path[0]], path[1..])
    else None
  }

  /** Nothing wrong with this value itself. */
  ghost predicate Sound(setting: Setting) {
    && !setting.Unsupported?
    && setting != Words("")
    && (setting.Roster? ==> "" !in setting.names)
    && (setting.Table? ==> "" !in setting.entries)
  }

  /** The recursive descent accepts exactly the settings in which nothing is wrong at any
      depth. */
  lemma {:induction false} SettingIff(setting: Setting)
    ensures ValidSetting(setting) <==> forall path :: At(setting, path).Some? ==> Sound(At(setting, path).value)
  {
    if ValidSetting(setting) {
      forall path | At(setting, path).Some?
        ensures Sound(At(setting, path).value)
      {
        SoundBelow(setting, path);
      }
    } else {
      var path := FaultIn(setting);
    }
  }

  lemma {:induction false} SoundBelow(setting: Setting, path: seq<string>)
    requires ValidSetting(setting) && At(setting, path).Some?
    ensures Sound(At(setting, path).value)
    decreases |path|
  {
    if path != [] {
      SoundBelow(setting.entries[path[0]], path[1..]);
    }
  }

  lemma {:induction false} FaultIn(setting: Setting) returns (path: seq<string>)
    requires !ValidSetting(setting)
    ensures At(setting, path).Some? && !Sound(At(setting, path).value)
    decreases setting
  {
    path := [];
    if setting.Table? && "" !in setting.entries {
      var key :| key in setting.entries && !ValidSetting(setting.entries[key]);
      var rest := FaultIn(setting.entries[key]);
      path := [key] + rest;
      assert path[1..] == rest;
    }
  }

  predicate ValidCounts(counts: map<string, int>) {
    forall key :: key in counts ==> key != "" && counts[key] >= 0
  }

  predicate ValidCost(cost: Option<real>) {
    cost.Some? ==> cost.value >= 0.0
  }

  predicate Filled(text: Option<string>) {
    text.Some? && text.value != ""
  }

  predicate ValidMessage(m: MessageRecord, maxTurns: int) {
    && IsTurnId(m.id) && IsEnding(m.ended)
    && 0 <= m.loopsCompleted <= m.loopsStarted <= maxTurns
    && m.startedAt != "" && m.finishedAt != ""
    && (m.usage.Some? ==> ValidCounts(m.usage.value))
    && ValidCost(m.cost)
  }

  /** The part of a capture's test that does not look at the messages. */
  predicate WellFormedCapture(c: CaptureRecord) {
    && IsCaptureId(c.id) && IsTurnId(c.after) && IsRelativePosixPath(c.path)
    && (c.status.Captured? ==>
      && c.bytes.Some? && c.bytes.value >= 0
      && c.sha256.Some? && IsSha256(c.sha256.value)
      && Filled(c.artifact))
    && (c.status.Failed? ==> Filled(c.error))
  }

  predicate Delivered(messages: seq<MessageRecord>, id: string) {
    exists i :: 0 <= i < |messages| && messages[i].id == id
  }

  predicate ValidHeader(s: Summary) {
    && s.schema == EXECUTION_SCHEMA
    && (s.mode == "single" || s.mode == "retained")
    && PositiveLimits(s.limits)
    && (forall i :: 0 <= i < |s.sessionIds| ==> s.sessionIds[i] != "")
    && s.model != "" && s.harness != "" && s.harnessVersion != ""
    && (s.error.Some? ==> s.error.value != "")
    && IsEnding(s.ended)
    && s.handoff != map[] && (forall key :: key in s.handoff ==> key != "" && s.handoff[key] != "")
    && ValidSettings(s.settings) && ValidCounts(s.usage) && ValidCost(s.cost)
    && (s.messages != [] ==> s.sessionIds != [])
  }

  predicate ValidSummary(s: Summary) {
    && ValidHeader(s)
    && (forall i :: 0 <= i < |s.messages| ==> ValidMessage(s.messages[i], s.limits.maxTurns))
    && (forall i :: 0 <= i < |s.captures| ==>
      WellFormedCapture(s.captures[i]) && Delivered(s.messages, s.captures[i].after))
  }

  /** The summary validator accepts exactly the valid summaries. */
  method ValidateExecutionSummary(s: Summary) returns (accepted: bool)
    ensures accepted <==> ValidSummary(s)
    ensures accepted <==>
            && s.schema == "yacht.execution.v1" && (s.mode == "single" || s.mode == "retained")
            && s.limits.maxTurns >= 1 && s.limits.messageTimeout >= 1 && s.limits.timeout >= 1
            && "" !in s.sessionIds && (s.sessionIds == [] ==> s.messages == [])
            && s.model != "" && s.harness != "" && s.harnessVersion != "" && s.error != Some("")
            && (s.ended == "natural" || s.ended == "cap" || s.ended == "timeout" || s.ended == "error")
            && s.handoff != map[] && "" !in s.handoff.Keys && "" !in s.handoff.Values
            && "" !in s.settings && (forall key :: key in s.settings ==> ValidSetting(s.settings[key]))
            && "" !in s.usage && (forall key :: key in s.usage ==> s.usage[key] >= 0)
            && (s.cost.Some? ==> s.cost.value >= 0.0)
            && (forall i :: 0 <= i < |s.messages| ==>
              var m := s.messages[i];
              && IsTurnId(m.id) && m.startedAt != "" && m.finishedAt != ""
              && (m.ended == "natural" || m.ended == "cap" || m.ended == "timeout" || m.ended == "error")
              && 0 <= m.loopsCompleted <= m.loopsStarted <= s.limits.maxTurns
              && (m.usage.Some? ==> forall key :: key in m.usage.value ==> key != "" && m.usage.value[key] >= 0)
              && (m.cost.Some? ==> m.cost.value >= 0.0))
            && (forall i :: 0 <= i < |s.captures| ==>
              var c := s.captures[i];
              && IsCaptureId(c.id) && IsTurnId(c.after) && IsRelativePosixPath(c.path)
              && (exists k :: 0 <= k < |s.messages| && s.messages[k].id == c.after)
              && (c.status == Captured ==>
                && c.bytes.Some? && c.bytes.value >= 0 && c.sha256.Some? && IsSha256(c.sha256.value)
                && c.artifact.Some? && c.artifact.value != "")
              && (c.status == Failed ==> c.error.Some? && c.error.value != ""))
  {
    if !ValidHeader(s) {
      return false;
    }
    var delivered: set<string> := {};
    for index := 0 to |s.messages|
      invariant forall i :: 0 <= i < index ==> ValidMessage(s.messages[i], s.limits.maxTurns)
      invariant forall i :: 0 <= i < index ==> s.messages[i].id in delivered
      invariant forall id :: id in delivered ==> exists i :: 0 <= i < index && s.messages[i].id == id
    {
      if !ValidMessage(s.messages[index], s.limits.maxTurns) {
        return false;
      }
      delivered := delivered + {s.messages[index].id};
    }
    for index := 0 to |s.captures|
      invariant forall i :: 0 <= i < index ==>
                              WellFormedCapture(s.captures[i]) && Delivered(s.messages, s.captures[i].after)
    {
      if !WellFormedCapture(s.captures[index]) || s.captures[index].after !in delivered {
        return false;
      }
    }
    accepted := true;
  }

  /** Evidence of a loop beyond the budget is refused, whatever else it says. */
  lemma {:induction false} OverBudgetIsRefused(s: Summary, i: nat)
    requires i < |s.messages| && (s.messages[i].loopsStarted > s.limits.maxTurns || s.messages[i].loopsCompleted < 0
                                  || s.messages[i].loopsCompleted > s.messages[i].loopsStarted)
    ensures !ValidSummary(s)
  {
    assert !ValidMessage(s.messages[i], s.limits.maxTurns);
  }
}
