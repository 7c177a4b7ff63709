/** Benchmark scorecards: the builder (reports/benchmark_scorecard.py) against the
    recounting validator (contracts/schemas.py).

    Builder and validator count on their own: one by comprehensions over the vessels
    and sums over the summaries, the other by loops.  Both are held against `Census`,
    the plain count of the vessels that a key speaks about. */
module Scorecards {
  import opened Prelude

  datatype Status = Measured | Missing | Recorded

  datatype Vessel = Vessel(name: string, status: Status, eligible: bool, submitted: int, resolved: int, rate: real)

  datatype Grade = Grade(submitted: int, resolved: int, rate: real)

  datatype Plan = Plan(name: string, vessels: seq<string>)

  /** The keys of a summary; `RecordedVessels` may be absent and then stands for zero. */
  datatype Key = TotalVessels | EligibleVessels | BlockedVessels | MeasuredVessels | MissingVessels | RecordedVessels

  type Summary = map<Key, int>

  const KEYS: seq<Key> := [TotalVessels, EligibleVessels, BlockedVessels, MeasuredVessels, MissingVessels]

  datatype Delta = Delta(baseline: string, challenger: string, resolved: int, rate: real)

  datatype Comparison = Comparison(name: string, summary: Summary, delta: Delta, vessels: seq<Vessel>)

  datatype TopSummary = TopSummary(comparisons: int, summary: Summary)

  datatype Completion = Complete | Partial | Empty

  datatype Scorecard = Scorecard(completion: Completion, summary: TopSummary, comparisons: seq<Comparison>)

  function Get(summary: Summary, key: Key): int {
    if key in summary then summary[key] else 0
  }

  // ---------- The census ----------

  /** The vessels that a key speaks about. */
  predicate Counts(key: Key, vessel: Vessel) {
    match key
    case TotalVessels => true
    case EligibleVessels => !vessel.status.Recorded? && vessel.eligible
    case BlockedVessels => !vessel.status.Recorded? && !vessel.eligible
    case MeasuredVessels => vessel.status.Measured?
    case MissingVessels => vessel.status.Missing?
    case RecordedVessels => vessel.status.Recorded?
  }

  /** How many of the first `n` vessels that is. */
  function Census(vessels: seq<Vessel>, key: Key, n: nat): nat
    requires n <= |vessels|
  {
    if n == 0 then 0 else Census(vessels, key, n - 1) + (if Counts(key, vessels[n - 1]) then 1 else 0)
  }

  /** The summary has every required key, and what it says of each key is the census. */
  ghost predicate Summarizes(summary: Summary, vessels: seq<Vessel>) {
    && (forall key :: key in KEYS ==> key in summary)
    && (forall key :: Get(summary, key) == Census(vessels, key, |vessels|))
  }

  function AllVessels(comparisons: seq<Comparison>, n: nat): seq<Vessel>
    requires n <= |comparisons|
  {
    if n == 0 then [] else AllVessels(comparisons, n - 1) + comparisons[n - 1].vessels
  }

  lemma {:induction false} CensusOfTotal(vessels: seq<Vessel>, n: nat)
    requires n <= |vessels|
    ensures Census(vessels, TotalVessels, n) == n
  {
    if n > 0 {
      CensusOfTotal(vessels, n - 1);
    }
  }

  /** Every vessel is eligible, blocked or recorded, and measured, missing or recorded. */
  lemma {:induction false} VesselsPartition(vessels: seq<Vessel>, n: nat)
    requires n <= |vessels|
    ensures Census(vessels, EligibleVessels, n) + Census(vessels, BlockedVessels, n)
            + Census(vessels, RecordedVessels, n) == n
    ensures Census(vessels, MeasuredVessels, n) + Census(vessels, MissingVessels, n)
            + Census(vessels, RecordedVessels, n) == n
  {
    if n > 0 {
      VesselsPartition(vessels, n - 1);
    }
  }

  lemma {:induction false} CensusAppend(a: seq<Vessel>, b: seq<Vessel>, key: Key, n: nat)
    requires n <= |b|
    ensures Census(a + b, key, |a| + n) == Census(a, key, |a|) + Census(b, key, n)
  {
    if n == 0 {
      CensusPrefix(a, a + b, key, |a|);
    } else {
      CensusAppend(a, b, key, n - 1);
      assert (a + b)[|a| + n - 1] == b[n - 1];
    }
  }

  lemma {:induction false} CensusPrefix(a: seq<Vessel>, c: seq<Vessel>, key: Key, n: nat)
    requires n <= |a| <= |c| && c[..|a|] == a
    ensures Census(c, key, n) == Census(a, key, n)
  {
    if n > 0 {
      CensusPrefix(a, c, key, n - 1);
      assert c[n - 1] == a[n - 1];
    }
  }

  lemma {:induction false} CensusZeroIff(vessels: seq<Vessel>, key: Key, n: nat)
    requires n <= |vessels|
    ensures Census(vessels, key, n) == 0 <==> forall i :: 0 <= i < n ==> !Counts(key, vessels[i])
  {
    if n > 0 {
      CensusZeroIff(vessels, key, n - 1);
    }
  }

  // ---------- The builder: comprehensions ----------

  predicate IsLive(vessel: Vessel) {
    !vessel.status.Recorded?
  }

  predicate IsEligible(vessel: Vessel) {
    vessel.eligible
  }

  predicate IsBlocked(vessel: Vessel) {
    !vessel.eligible
  }

  predicate IsMeasured(vessel: Vessel) {
    vessel.status.Measured?
  }

  predicate IsMissing(vessel: Vessel) {
    vessel.status.Missing?
  }

  /** The chosen ones among the first `n`, in order. */
  function Those(vessels: seq<Vessel>, chosen: Vessel -> bool, n: nat): (those: seq<Vessel>)
    requires n <= |vessels|
    ensures |those| <= n
  {
    if n == 0 then []
    else Those(vessels, chosen, n - 1) + (if chosen(vessels[n - 1]) then [vessels[n - 1]] else [])
  }

  function ComparisonSummary(vessels: seq<Vessel>): Summary {
    var live := Those(vessels, IsLive, |vessels|);
    var recorded := |vessels| - |live|;
    var summary := map[
                     TotalVessels := |vessels|,
                     EligibleVessels := |Those(live, IsEligible, |live|)|,
                     BlockedVessels := |Those(live, IsBlocked, |live|)|,
                     MeasuredVessels := |Those(vessels, IsMeasured, |vessels|)|,
                     MissingVessels := |Those(vessels, IsMissing, |vessels|)|];
    if recorded != 0 then summary[RecordedVessels := recorded] else summary
  }

  /** The sum of what the first `n` comparisons say of a key. */
  function SumOf(comparisons: seq<Comparison>, key: Key, n: nat): int
    requires n <= |comparisons|
  {
    if n == 0 then 0 else SumOf(comparisons, key, n - 1) + Get(comparisons[n - 1].summary, key)
  }

  function ScorecardSummary(comparisons: seq<Comparison>): Summary {
    var n := |comparisons|;
    var summary := map key | key in KEYS :: SumOf(comparisons, key, n);
    var recorded := SumOf(comparisons, RecordedVessels, n);
    if recorded != 0 then summary[RecordedVessels := recorded] else summary
  }

  /** Counting what a comprehension chooses is the census of its key. */
  lemma {:induction false} ThoseCount(vessels: seq<Vessel>, chosen: Vessel -> bool, key: Key, n: nat)
    requires n <= |vessels| && forall vessel :: chosen(vessel) <==> Counts(key, vessel)
    ensures |Those(vessels, chosen, n)| == Census(vessels, key, n)
  {
    if n > 0 {
      ThoseCount(vessels, chosen, key, n - 1);
    }
  }

  /** The same through the list of live vessels. */
  lemma {:induction false} ThoseLiveCount(vessels: seq<Vessel>, chosen: Vessel -> bool, key: Key, n: nat)
    requires n <= |vessels| && forall vessel :: IsLive(vessel) && chosen(vessel) <==> Counts(key, vessel)
    ensures var live := Those(vessels, IsLive, n); |Those(live, chosen, |live|)| == Census(vessels, key, n)
  {
    if n > 0 {
      ThoseLiveCount(vessels, chosen, key, n - 1);
      var before, live := Those(vessels, IsLive, n - 1), Those(vessels, IsLive, n);
      if IsLive(vessels[n - 1]) {
        ThosePrefix(before, live, chosen, |before|);
        assert live[|live| - 1] == vessels[n - 1];
      } else {
        assert live == before;
      }
    }
  }

  lemma {:induction false} ThosePrefix(a: seq<Vessel>, c: seq<Vessel>, chosen: Vessel -> bool, n: nat)
    requires n <= |a| <= |c| && c[..|a|] == a
    ensures Those(c, chosen, n) == Those(a, chosen, n)
  {
    if n > 0 {
      ThosePrefix(a, c, chosen, n - 1);
      assert c[n - 1] == a[n - 1];
    }
  }

  lemma {:induction false} LiveCount(vessels: seq<Vessel>, n: nat)
    requires n <= |vessels|
    ensures n - |Those(vessels, IsLive, n)| == Census(vessels, RecordedVessels, n)
  {
    if n > 0 {
      LiveCount(vessels, n - 1);
    }
  }

  /** A built comparison summary is the census of its vessels, and mentions recorded ones
      only if there are some. */
  lemma {:induction false} ComparisonSummaryCounts(vessels: seq<Vessel>)
    ensures Summarizes(ComparisonSummary(vessels), vessels)
    ensures RecordedVessels in ComparisonSummary(vessels) <==> Census(vessels, RecordedVessels, |vessels|) > 0
  {
    var n := |vessels|;
    CensusOfTotal(vessels, n);
    ThoseLiveCount(vessels, IsEligible, EligibleVessels, n);
    ThoseLiveCount(vessels, IsBlocked, BlockedVessels, n);
    ThoseCount(vessels, IsMeasured, MeasuredVessels, n);
    ThoseCount(vessels, IsMissing, MissingVessels, n);
    LiveCount(vessels, n);
    forall key
      ensures Get(ComparisonSummary(vessels), key) == Census(vessels, key, n)
    {
      match key
      case TotalVessels =>
      case EligibleVessels =>
      case BlockedVessels =>
      case MeasuredVessels =>
      case MissingVessels =>
      case RecordedVessels =>
    }
  }

  /** Sums of summaries that are censuses count the vessels of all comparisons. */
  lemma {:induction false} SumsCount(comparisons: seq<Comparison>, key: Key, n: nat)
    requires n <= |comparisons|
    requires forall i :: 0 <= i < n ==> Summarizes(comparisons[i].summary, comparisons[i].vessels)
    ensures SumOf(comparisons, key, n) == Census(AllVessels(comparisons, n), key, |AllVessels(comparisons, n)|)
  {
    if n > 0 {
      SumsCount(comparisons, key, n - 1);
      assert Summarizes(comparisons[n - 1].summary, comparisons[n - 1].vessels);
      var before, last := AllVessels(comparisons, n - 1), comparisons[n - 1].vessels;
      CensusAppend(before, last, key, |last|);
    }
  }

  /** A built top-level summary is the census of all vessels. */
  lemma {:induction false} ScorecardSummaryCounts(comparisons: seq<Comparison>)
    requires forall i :: 0 <= i < |comparisons| ==> Summarizes(comparisons[i].summary, comparisons[i].vessels)
    ensures Summarizes(ScorecardSummary(comparisons), AllVessels(comparisons, |comparisons|))
    ensures var vessels := AllVessels(comparisons, |comparisons|);
            RecordedVessels in ScorecardSummary(comparisons) <==> Census(vessels, RecordedVessels, |vessels|) > 0
  {
    var vessels := AllVessels(comparisons, |comparisons|);
    forall key
      ensures Get(ScorecardSummary(comparisons), key) == Census(vessels, key, |vessels|)
    {
      SumsCount(comparisons, key, |comparisons|);
      assert key in KEYS || key == RecordedVessels by {
        EveryKey(key);
      }
    }
  }

  lemma {:induction false} EveryKey(key: Key)
    ensures key in KEYS <==> key != RecordedVessels
  {
    assert KEYS[0] == TotalVessels && KEYS[1] == EligibleVessels && KEYS[2] == BlockedVessels;
    assert KEYS[3] == MeasuredVessels && KEYS[4] == MissingVessels;
  }

  function VesselScore(comparison: string, name: string, measured: map<string, Grade>,
                       preflight: map<(string, string), bool>): Vessel
    requires (comparison, name) in preflight
  {
    var eligible := preflight[(comparison, name)];
    if name !in measured then Vessel(name, Missing, eligible, 0, 0, 0.0)
    else Vessel(name, Measured, eligible, measured[name].submitted, measured[name].resolved, measured[name].rate)
  }

  function DeltaOf(vessels: seq<Vessel>): Delta
    requires |vessels| >= 2
  {
    Delta(vessels[0].name, vessels[1].name,
          vessels[1].resolved - vessels[0].resolved, vessels[1].rate - vessels[0].rate)
  }

  predicate MeasuredStatus(status: Status) {
    status.Measured? || status.Recorded?
  }

  function CompletionOf(vessels: seq<Vessel>): Completion {
    if forall i :: 0 <= i < |vessels| ==> MeasuredStatus(vessels[i].status) then Complete
    else if exists i :: 0 <= i < |vessels| && vessels[i].status.Measured? then Partial
    else Empty
  }

  /** What the builder works from: the evaluated comparisons, the gradings by vessel,
      the preflight verdicts, and the recorded baselines by comparison. */
  datatype Evidence = Evidence(
    plans: seq<Plan>,
    measured: map<string, Grade>,
    preflight: map<(string, string), bool>,
    recorded: map<string, Vessel>)

  /** Nothing that the builder looks up is missing, and every comparison compares. */
  predicate Buildable(evidence: Evidence, plan: Plan) {
    && (forall k :: 0 <= k < |plan.vessels| ==> (plan.name, plan.vessels[k]) in evidence.preflight)
    && |plan.vessels| + (if plan.name in evidence.recorded then 1 else 0) >= 2
  }

  function VesselsOf(evidence: Evidence, plan: Plan): (vessels: seq<Vessel>)
    requires Buildable(evidence, plan)
    ensures |vessels| >= 2
  {
    (if plan.name in evidence.recorded then [evidence.recorded[plan.name].(status := Recorded)] else []) +
    seq(|plan.vessels|, k requires 0 <= k < |plan.vessels| =>
      VesselScore(plan.name, plan.vessels[k], evidence.measured, evidence.preflight))
  }

  /** A comparison of the evidence's own vessels, summarised by their census. */
  ghost predicate Built(evidence: Evidence, plan: Plan, c: Comparison) {
    && Buildable(evidence, plan)
    && c.name == plan.name && c.vessels == VesselsOf(evidence, plan)
    && Summarizes(c.summary, c.vessels) && c.delta == DeltaOf(c.vessels)
  }

  /** A comparison can be built exactly when the preflight has a verdict on each of its
      vessels and, with the recorded baseline if there is one, there are two of them. */
  lemma {:induction false} BuildableIff(evidence: Evidence, plan: Plan)
    ensures Buildable(evidence, plan) <==>
            && (forall name :: name in plan.vessels ==> (plan.name, name) in evidence.preflight)
            && (|plan.vessels| >= 2 || (|plan.vessels| == 1 && plan.name in evidence.recorded))
  {
  }

  /** What is built: the recorded baseline first, if there is one; then the vessels of the
      plan in order, with their verdict and, if they were graded, their grades; their
      census; and the lead of the second vessel over the first. */
  lemma {:induction false} BuiltIs(evidence: Evidence, plan: Plan, c: Comparison)
    requires Built(evidence, plan, c)
    ensures c.name == plan.name && Summarizes(c.summary, c.vessels)
    ensures var first := if plan.name in evidence.recorded then 1 else 0;
            && |c.vessels| == first + |plan.vessels| >= 2
            && (first == 1 ==> c.vessels[0] == evidence.recorded[plan.name].(status := Recorded))
            && forall k :: 0 <= k < |plan.vessels| ==>
                 var name, vessel := plan.vessels[k], c.vessels[first + k];
                 && vessel.name == name && (plan.name, name) in evidence.preflight
                 && (vessel.eligible <==> evidence.preflight[(plan.name, name)])
                 && (if name in evidence.measured then
                       var grade := evidence.measured[name];
                       && vessel.status == Measured && vessel.submitted == grade.submitted
                       && vessel.resolved == grade.resolved && vessel.rate == grade.rate
                     else
                       vessel.status == Missing && vessel.submitted == 0 && vessel.resolved == 0 && vessel.rate == 0.0)
    ensures c.delta.baseline == c.vessels[0].name && c.delta.challenger == c.vessels[1].name
    ensures c.delta.resolved == c.vessels[1].resolved - c.vessels[0].resolved
    ensures c.delta.rate == c.vessels[1].rate - c.vessels[0].rate
  {
  }

  /** A missing preflight verdict, or fewer than two vessels, raises. */
  method BuildScorecard(evidence: Evidence) returns (built: Result<Scorecard>)
    ensures built.Ok? <==> forall i :: 0 <= i < |evidence.plans| ==> Buildable(evidence, evidence.plans[i])
    ensures built.Ok? ==>
              var comparisons := built.value.comparisons;
              && |comparisons| == |evidence.plans|
              && (forall i :: 0 <= i < |comparisons| ==> Built(evidence, evidence.plans[i], comparisons[i]))
              && built.value.summary.comparisons == |comparisons|
              && Summarizes(built.value.summary.summary, AllVessels(comparisons, |comparisons|))
              && built.value.completion == CompletionOf(AllVessels(comparisons, |comparisons|))
  {
    var comparisons: seq<Comparison> := [];
    for i := 0 to |evidence.plans|
      invariant |comparisons| == i
      invariant forall j :: 0 <= j < i ==> Buildable(evidence, evidence.plans[j])
      invariant forall j :: 0 <= j < i ==> Built(evidence, evidence.plans[j], comparisons[j])
    {
      if !Buildable(evidence, evidence.plans[i]) {
        return Err("the evidence for a comparison is incomplete");
      }
      var vessels := VesselsOf(evidence, evidence.plans[i]);
      ComparisonSummaryCounts(vessels);
      comparisons := comparisons +
      [Comparison(evidence.plans[i].name, ComparisonSummary(vessels), DeltaOf(vessels), vessels)];
    }
    var n := |comparisons|;
    forall i | 0 <= i < n
      ensures Summarizes(comparisons[i].summary, comparisons[i].vessels)
    {
      assert Built(evidence, evidence.plans[i], comparisons[i]);
    }
    ScorecardSummaryCounts(comparisons);
    built := Ok(Scorecard(CompletionOf(AllVessels(comparisons, n)), TopSummary(n, ScorecardSummary(comparisons)),
                          comparisons));
  }

  // ---------- The validator: loops ----------

  const TOLERANCE := 0.000000001

  function Gap(a: real, b: real): real {
    if a < b then b - a else a - b
  }

  predicate DeltaAgrees(delta: Delta, vessels: seq<Vessel>)
    requires |vessels| >= 2
  {
    && delta.baseline == vessels[0].name && delta.challenger == vessels[1].name
    && delta.resolved == vessels[1].resolved - vessels[0].resolved
    && Gap(delta.rate, vessels[1].rate - vessels[0].rate) <= TOLERANCE
  }

  /** Every required key is there and not negative. */
  method ShapedSummary(summary: Summary) returns (shaped: bool)
    ensures shaped <==> forall key :: key in KEYS ==> key in summary && summary[key] >= 0
  {
    for k := 0 to |KEYS|
      invariant forall j :: 0 <= j < k ==> KEYS[j] in summary && summary[KEYS[j]] >= 0
    {
      if KEYS[k] !in summary || summary[KEYS[k]] < 0 {
        return false;
      }
    }
    shaped := true;
  }

  /** Compares key by key with an expected count. */
  method EqualsExpected(summary: Summary, expected: Summary) returns (equal: bool)
    requires forall key :: key in KEYS ==> key in summary && key in expected
    ensures equal <==> forall key :: key in KEYS ==> summary[key] == expected[key]
  {
    for k := 0 to |KEYS|
      invariant forall j :: 0 <= j < k ==> summary[KEYS[j]] == expected[KEYS[j]]
    {
      if summary[KEYS[k]] != expected[KEYS[k]] {
        return false;
      }
    }
    equal := true;
  }

  /** What the validator expects of a comparison: it lists the live vessels, counts the
      eligible and the blocked ones in that list, and the statuses over all vessels. */
  method RecountVessels(vessels: seq<Vessel>) returns (expected: Summary, recorded: int)
    ensures forall key :: key in KEYS ==> key in expected && expected[key] == Census(vessels, key, |vessels|)
    ensures recorded == Census(vessels, RecordedVessels, |vessels|)
  {
    var live: seq<Vessel> := [];
    for i := 0 to |vessels|
      invariant |live| == i - Census(vessels, RecordedVessels, i)
      invariant forall j :: 0 <= j < |live| ==> live[j].status != Recorded
      invariant forall key :: key == EligibleVessels || key == BlockedVessels ==>
                  Census(live, key, |live|) == Census(vessels, key, i)
    {
      if vessels[i].status != Recorded {
        CensusAppend(live, [vessels[i]], EligibleVessels, 1);
        CensusAppend(live, [vessels[i]], BlockedVessels, 1);
        live := live + [vessels[i]];
      }
    }
    var eligible, blocked := CountEligible(live);
    var measured, missing := 0, 0;
    for i := 0 to |vessels|
      invariant measured == Census(vessels, MeasuredVessels, i) && missing == Census(vessels, MissingVessels, i)
    {
      if vessels[i].status == Measured {
        measured := measured + 1;
      } else if vessels[i].status == Missing {
        missing := missing + 1;
      }
    }
    expected := map[TotalVessels := |vessels|, EligibleVessels := eligible, BlockedVessels := blocked,
                    MeasuredVessels := measured, MissingVessels := missing];
    recorded := |vessels| - |live|;
    CensusOfTotal(vessels, |vessels|);
  }

  method CountEligible(live: seq<Vessel>) returns (eligible: int, blocked: int)
    requires forall i :: 0 <= i < |live| ==> live[i].status != Recorded
    ensures eligible == Census(live, EligibleVessels, |live|)
    ensures blocked == Census(live, BlockedVessels, |live|)
  {
    eligible, blocked := 0, 0;
    for i := 0 to |live|
      invariant eligible == Census(live, EligibleVessels, i) && blocked == Census(live, BlockedVessels, i)
    {
      if live[i].eligible {
        eligible := eligible + 1;
      } else {
        blocked := blocked + 1;
      }
    }
  }

  /** A comparison passes exactly when its summary is the census of its vessels and
      its delta is theirs. */
  ghost predicate Fits(c: Comparison) {
    && |c.vessels| >= 2
    && Summarizes(c.summary, c.vessels) && DeltaAgrees(c.delta, c.vessels)
  }

  lemma {:induction false} CensusIsShaped(summary: Summary, vessels: seq<Vessel>)
    ensures Summarizes(summary, vessels) ==> forall key :: key in KEYS ==> key in summary && summary[key] >= 0
  {
    forall key | Summarizes(summary, vessels) && key in KEYS
      ensures key in summary && summary[key] >= 0
    {
      assert Get(summary, key) == Census(vessels, key, |vessels|);
    }
  }

  method ValidateComparison(c: Comparison) returns (accepted: bool)
    ensures accepted <==> Fits(c)
    ensures accepted <==>
            && |c.vessels| >= 2 && Summarizes(c.summary, c.vessels)
            && c.delta.baseline == c.vessels[0].name && c.delta.challenger == c.vessels[1].name
            && c.delta.resolved == c.vessels[1].resolved - c.vessels[0].resolved
            && -0.000000001 <= c.delta.rate - (c.vessels[1].rate - c.vessels[0].rate) <= 0.000000001
  {
    var shaped := ShapedSummary(c.summary);
    CensusIsShaped(c.summary, c.vessels);
    if !shaped || |c.vessels| < 2 {
      return false;
    }
    var expected, recorded := RecountVessels(c.vessels);
    if Get(c.summary, RecordedVessels) != recorded {
      return false;
    }
    var equal := EqualsExpected(c.summary, expected);
    AgreementIsCensus(c.summary, expected, c.vessels);
    accepted := equal && DeltaAgrees(c.delta, c.vessels);
  }

  lemma {:induction false} AgreementIsCensus(summary: Summary, expected: Summary, vessels: seq<Vessel>)
    requires forall key :: key in KEYS ==>
               key in summary && key in expected && expected[key] == Census(vessels, key, |vessels|)
    requires Get(summary, RecordedVessels) == Census(vessels, RecordedVessels, |vessels|)
    ensures (forall key :: key in KEYS ==> summary[key] == expected[key]) <==> Summarizes(summary, vessels)
  {
    forall key
      ensures key in KEYS || key == RecordedVessels
    {
      EveryKey(key);
    }
    if Summarizes(summary, vessels) {
      forall key | key in KEYS
        ensures summary[key] == expected[key]
      {
        assert Get(summary, key) == Census(vessels, key, |vessels|);
      }
    }
  }

  /** What the validator expects at the top: the sums over the comparisons' summaries,
      which it has found to be right by then, and so the census of all vessels. */
  method RecountComparisons(comparisons: seq<Comparison>) returns (expected: Summary, recorded: int)
    requires forall i :: 0 <= i < |comparisons| ==> Fits(comparisons[i])
    ensures var vessels := AllVessels(comparisons, |comparisons|);
            && (forall key :: key in KEYS ==> key in expected && expected[key] == Census(vessels, key, |vessels|))
            && recorded == Census(vessels, RecordedVessels, |vessels|)
  {
    expected := map[];
    for k := 0 to |KEYS|
      invariant forall j :: 0 <= j < k ==>
                  KEYS[j] in expected && expected[KEYS[j]] == SumOf(comparisons, KEYS[j], |comparisons|)
    {
      var sum := 0;
      for i := 0 to |comparisons|
        invariant sum == SumOf(comparisons, KEYS[k], i)
      {
        assert Summarizes(comparisons[i].summary, comparisons[i].vessels);
        sum := sum + comparisons[i].summary[KEYS[k]];
      }
      expected := expected[KEYS[k] := sum];
    }
    recorded := 0;
    for i := 0 to |comparisons|
      invariant recorded == SumOf(comparisons, RecordedVessels, i)
    {
      recorded := recorded + Get(comparisons[i].summary, RecordedVessels);
    }
    forall key
      ensures SumOf(comparisons, key, |comparisons|) ==
              Census(AllVessels(comparisons, |comparisons|), key, |AllVessels(comparisons, |comparisons|)|)
    {
      SumsCount(comparisons, key, |comparisons|);
    }
  }

  /** Every comparison fits, and the top-level summary is the census of all vessels. */
  ghost predicate Consistent(card: Scorecard) {
    && card.comparisons != []
    && (forall i :: 0 <= i < |card.comparisons| ==> Fits(card.comparisons[i]))
    && card.summary.comparisons == |card.comparisons|
    && Summarizes(card.summary.summary, AllVessels(card.comparisons, |card.comparisons|))
  }

  /** The part of the scorecard's validation that recounts. */
  method ValidateScorecard(card: Scorecard) returns (accepted: bool)
    ensures accepted <==> Consistent(card)
  {
    var shaped := ShapedSummary(card.summary.summary);
    CensusIsShaped(card.summary.summary, AllVessels(card.comparisons, |card.comparisons|));
    if !shaped || card.comparisons == [] {
      return false;
    }
    for i := 0 to |card.comparisons|
      invariant forall j :: 0 <= j < i ==> Fits(card.comparisons[j])
    {
      var fits := ValidateComparison(card.comparisons[i]);
      if !fits {
        return false;
      }
    }
    var expected, recorded := RecountComparisons(card.comparisons);
    if Get(card.summary.summary, RecordedVessels) != recorded || card.summary.comparisons != |card.comparisons| {
      return false;
    }
    accepted := EqualsExpected(card.summary.summary, expected);
    AgreementIsCensus(card.summary.summary, expected, AllVessels(card.comparisons, |card.comparisons|));
  }

  // ---------- Builder meets recount ----------

  /** What is built passes the recount exactly when there is a comparison at all. */
  method BuildThenRecount(evidence: Evidence) returns (built: Result<Scorecard>, accepted: bool)
    ensures built.Ok? <==> forall i :: 0 <= i < |evidence.plans| ==> Buildable(evidence, evidence.plans[i])
    ensures built.Ok? ==> (accepted <==> evidence.plans != [])
    ensures built.Err? ==> !accepted
  {
    built := BuildScorecard(evidence);
    if built.Err? {
      return built, false;
    }
    var comparisons := built.value.comparisons;
    forall i | 0 <= i < |comparisons|
      ensures Fits(comparisons[i])
    {
      assert Built(evidence, evidence.plans[i], comparisons[i]);
    }
    accepted := ValidateScorecard(built.value);
  }

  /** In whatever passes, built or not, every vessel is counted once on either side. */
  lemma {:induction false} SummariesPartition(card: Scorecard)
    requires Consistent(card)
    ensures var t := card.summary.summary;
            && t[EligibleVessels] + t[BlockedVessels] + Get(t, RecordedVessels) == t[TotalVessels]
            && t[MeasuredVessels] + t[MissingVessels] + Get(t, RecordedVessels) == t[TotalVessels]
            && t[TotalVessels] == |AllVessels(card.comparisons, |card.comparisons|)|
  {
    var vessels := AllVessels(card.comparisons, |card.comparisons|);
    var t := card.summary.summary;
    VesselsPartition(vessels, |vessels|);
    CensusOfTotal(vessels, |vessels|);
    EveryKey(TotalVessels);
    EveryKey(EligibleVessels);
    EveryKey(BlockedVessels);
    EveryKey(MeasuredVessels);
    EveryKey(MissingVessels);
    assert Get(t, TotalVessels) == t[TotalVessels] && Get(t, EligibleVessels) == t[EligibleVessels];
    assert Get(t, BlockedVessels) == t[BlockedVessels] && Get(t, MeasuredVessels) == t[MeasuredVessels];
    assert Get(t, MissingVessels) == t[MissingVessels];
  }

  /** In whatever passes, the completion of its vessels can be read off the top-level summary. */
  lemma {:induction false} CompletionFromSummary(card: Scorecard)
    requires Consistent(card)
    ensures CompletionOf(AllVessels(card.comparisons, |card.comparisons|)) ==
            if Get(card.summary.summary, MissingVessels) == 0 then Complete
            else if Get(card.summary.summary, MeasuredVessels) > 0 then Partial
            else Empty
  {
    var vessels := AllVessels(card.comparisons, |card.comparisons|);
    CensusZeroIff(vessels, MissingVessels, |vessels|);
    CensusZeroIff(vessels, MeasuredVessels, |vessels|);
    forall i | 0 <= i < |vessels|
      ensures MeasuredStatus(vessels[i].status) <==> !Counts(MissingVessels, vessels[i])
      ensures vessels[i].status.Measured? <==> Counts(MeasuredVessels, vessels[i])
    {
    }
  }
}
