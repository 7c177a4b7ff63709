/** Complete-or-unknown totals: a total is reported for a key only when every
    item reported that key (controlled_omp.py, omp_session.ts, episodes.py). */
module Accounting {
  import opened Prelude

  type Counts = map<string, int>

  // ---------- What a total should be ----------

  function CountOf(item: Option<Counts>, key: string): int {
    if item.Some? && key in item.value then item.value[key] else 0
  }

  /** The sum of `key` over the first `n` items, a missing report adding nothing. */
  function SumOf(items: seq<Option<Counts>>, key: string, n: nat): int
    requires n <= |items|
  {
    if n == 0 then 0 else SumOf(items, key, n - 1) + CountOf(items[n - 1], key)
  }

  predicate Reported(item: Option<Counts>, key: string) {
    item.Some? && key in item.value
  }

  predicate ReportedByAll(items: seq<Option<Counts>>, key: string, n: nat)
    requires n <= |items|
  {
    forall i :: 0 <= i < n ==> Reported(items[i], key)
  }

  predicate ReportedByAny(items: seq<Option<Counts>>, key: string, n: nat)
    requires n <= |items|
  {
    exists i :: 0 <= i < n && Reported(items[i], key)
  }

  /** Exactly the keys that every item reported, each with its exact sum. */
  function CompleteTotals(items: seq<Option<Counts>>): Counts {
    if items == [] || items[0].None? then map[]
    else map key | key in items[0].value && ReportedByAll(items, key, |items|) :: SumOf(items, key, |items|)
  }

  function CostSum(costs: seq<Option<real>>, n: nat): real
    requires n <= |costs|
  {
    if n == 0 then 0.0 else CostSum(costs, n - 1) + (if costs[n - 1].Some? then costs[n - 1].value else 0.0)
  }

  predicate AllPriced(costs: seq<Option<real>>, n: nat)
    requires n <= |costs|
  {
    forall i :: 0 <= i < n ==> costs[i].Some?
  }

  /** The exact sum when there is an item and every item has a price. */
  function CompleteCost(costs: seq<Option<real>>): Option<real> {
    if costs != [] && AllPriced(costs, |costs|) then Some(CostSum(costs, |costs|)) else None
  }

  // ---------- The one-pass loop ----------

  /** Adds one item's counts to the running sums, one key at a time. */
  method AddCounts(sums: Counts, item: Counts) returns (added: Counts)
    ensures forall key :: key in added <==> key in sums || key in item
    ensures forall key :: key in added ==> added[key] == CountOf(Some(sums), key) + CountOf(Some(item), key)
  {
    added := sums;
    var pending := item.Keys;
    while pending != {}
      invariant pending <= item.Keys
      invariant forall key :: key in added <==> key in sums || (key in item && key !in pending)
      invariant forall key :: key in added && key in pending ==> added[key] == sums[key]
      invariant forall key :: key in added && key !in pending ==>
                                added[key] == CountOf(Some(sums), key) + CountOf(Some(item), key)
      decreases |pending|
    {
      var key :| key in pending;
      added := added[key := CountOf(Some(added), key) + item[key]];
      pending := pending - {key};
    }
  }

  /** The loop keeps every partial sum and the intersection of the key sets, and
      discards the sums that are not complete at the end. */
  method TotalUsage(items: seq<Option<Counts>>) returns (totals: Counts)
    ensures totals == CompleteTotals(items)
  {
    var sums: Counts := map[];
    var common: Option<set<string>> := None;
    for i := 0 to |items|
      invariant common.None? <==> i == 0
      invariant common.Some? ==> forall key :: key in common.value <==> ReportedByAll(items, key, i)
      invariant forall key :: key in sums <==> ReportedByAny(items, key, i)
      invariant forall key :: key in sums ==> sums[key] == SumOf(items, key, i)
      invariant forall key :: key !in sums ==> SumOf(items, key, i) == 0
    {
      var keys := {};
      if items[i].Some? {
        keys := items[i].value.Keys;
        sums := AddCounts(sums, items[i].value);
      }
      common := Some(if common.None? then keys else common.value * keys);
    }
    var complete := if common.Some? then common.value else {};
    totals := map key | key in sums && key in complete :: sums[key];
    if items != [] {
      assert forall key :: key in complete ==> Reported(items[0], key);
    }
  }

  method TotalCost(costs: seq<Option<real>>) returns (total: Option<real>)
    ensures total == CompleteCost(costs)
  {
    total := None;
    var known := costs != [];
    for i := 0 to |costs|
      invariant known <==> costs != [] && AllPriced(costs, i)
      invariant known ==> (total.Some? <==> i > 0) && (total.Some? ==> total.value == CostSum(costs, i))
    {
      if costs[i].Some? {
        total := Some((if total.None? then 0.0 else total.value) + costs[i].value);
      } else {
        known := false;
      }
    }
    if !known {
      total := None;
    }
  }

  /** A key is reported exactly when there is an item and every item reported it. */
  lemma {:induction false} TotalsReportIff(items: seq<Option<Counts>>, key: string)
    ensures key in CompleteTotals(items) <==> items != [] && ReportedByAll(items, key, |items|)
    ensures key in CompleteTotals(items) ==> CompleteTotals(items)[key] == SumOf(items, key, |items|)
  {
    if items != [] && ReportedByAll(items, key, |items|) {
      assert Reported(items[0], key);
    }
  }

  lemma {:induction false} SumOfNonNegative(items: seq<Option<Counts>>, key: string, n: nat)
    requires n <= |items| && forall i :: 0 <= i < n && Reported(items[i], key) ==> items[i].value[key] >= 0
    ensures SumOf(items, key, n) >= 0
  {
    if n > 0 {
      SumOfNonNegative(items, key, n - 1);
      assert CountOf(items[n - 1], key) >= 0;
    }
  }

  lemma {:induction false} CostSumNonNegative(costs: seq<Option<real>>, n: nat)
    requires n <= |costs| && forall i :: 0 <= i < n && costs[i].Some? ==> costs[i].value >= 0.0
    ensures CostSum(costs, n) >= 0.0
  {
    if n > 0 {
      CostSumNonNegative(costs, n - 1);
    }
  }

  // ---------- Totals of totals ----------

  lemma {:induction false} SumOfAppend(a: seq<Option<Counts>>, b: seq<Option<Counts>>, key: string, n: nat)
    requires n <= |b|
    ensures SumOf(a + b, key, |a| + n) == SumOf(a, key, |a|) + SumOf(b, key, n)
  {
    if n == 0 {
      SumOfPrefix(a, a + b, key, |a|);
    } else {
      SumOfAppend(a, b, key, n - 1);
      assert (a + b)[|a| + n - 1] == b[n - 1];
    }
  }

  lemma {:induction false} SumOfPrefix(a: seq<Option<Counts>>, c: seq<Option<Counts>>, key: string, n: nat)
    requires n <= |a| <= |c| && a == c[..|a|]
    ensures SumOf(c, key, n) == SumOf(a, key, n)
  {
    if n > 0 {
      SumOfPrefix(a, c, key, n - 1);
      assert c[n - 1] == a[n - 1];
    }
  }

  lemma {:induction false} CostSumAppend(a: seq<Option<real>>, b: seq<Option<real>>, n: nat)
    requires n <= |b|
    ensures CostSum(a + b, |a| + n) == CostSum(a, |a|) + CostSum(b, n)
  {
    if n == 0 {
      CostSumPrefix(a, a + b, |a|);
    } else {
      CostSumAppend(a, b, n - 1);
      assert (a + b)[|a| + n - 1] == b[n - 1];
    }
  }

  lemma {:induction false} CostSumPrefix(a: seq<Option<real>>, c: seq<Option<real>>, n: nat)
    requires n <= |a| <= |c| && a == c[..|a|]
    ensures CostSum(c, n) == CostSum(a, n)
  {
    if n > 0 {
      CostSumPrefix(a, c, n - 1);
      assert c[n - 1] == a[n - 1];
    }
  }

  /** The total of one report is that report, and a cost likewise. */
  lemma {:induction false} TotalOfOne(report: Counts, cost: Option<real>)
    ensures CompleteTotals([Some(report)]) == report && CompleteCost([cost]) == cost
    ensures CompleteTotals([None]) == CompleteTotals([]) == map[] && CompleteCost([]).None?
  {
    var items, costs := [Some(report)], [cost];
    assert items[0] == Some(report) && costs[0] == cost;
    forall key
      ensures key in report ==> ReportedByAll(items, key, 1)
      ensures SumOf(items, key, 1) == CountOf(Some(report), key)
    {
      assert SumOf(items, key, 1) == SumOf(items, key, 0) + CountOf(items[0], key);
    }
    assert CostSum(costs, 1) == CostSum(costs, 0) + if costs[0].Some? then costs[0].value else 0.0;
  }

  /** Totals of two lists of reports add up key by key: a key is totalled over both exactly
      when it is over each. */
  lemma {:induction false} TotalsAdd(a: seq<Option<Counts>>, b: seq<Option<Counts>>, key: string)
    requires a != [] && b != []
    ensures key in CompleteTotals(a + b) <==> key in CompleteTotals(a) && key in CompleteTotals(b)
    ensures key in CompleteTotals(a + b) ==>
              CompleteTotals(a + b)[key] == CompleteTotals(a)[key] + CompleteTotals(b)[key]
  {
    TotalsReportIff(a, key);
    TotalsReportIff(b, key);
    TotalsReportIff(a + b, key);
    AllOfAppend(a, b, key);
    SumOfAppend(a, b, key, |b|);
  }

  lemma {:induction false} CostsAdd(a: seq<Option<real>>, b: seq<Option<real>>)
    requires a != [] && b != []
    ensures CompleteCost(a + b) ==
            if CompleteCost(a).Some? && CompleteCost(b).Some? then Some(CompleteCost(a).value + CompleteCost(b).value)
            else None
  {
    AllPricedAppend(a, b);
    CostSumAppend(a, b, |b|);
  }

  /** All messages of the first `n` episodes, in order. */
  function Flat<T>(episodes: seq<seq<T>>, n: nat): seq<T>
    requires n <= |episodes|
  {
    if n == 0 then [] else Flat(episodes, n - 1) + episodes[n - 1]
  }

  /** What each episode's own summary reports; its usage is always an object. */
  function PerEpisode(episodes: seq<seq<Option<Counts>>>): (totals: seq<Option<Counts>>)
    ensures |totals| == |episodes|
  {
    seq(|episodes|, i requires 0 <= i < |episodes| => Some(CompleteTotals(episodes[i])))
  }

  function PerEpisodeCost(episodes: seq<seq<Option<real>>>): (totals: seq<Option<real>>)
    ensures |totals| == |episodes|
  {
    seq(|episodes|, i requires 0 <= i < |episodes| => CompleteCost(episodes[i]))
  }

  predicate NoneEmpty<T>(episodes: seq<seq<T>>, n: nat)
    requires n <= |episodes|
  {
    forall e :: 0 <= e < n ==> |episodes[e]| > 0
  }

  /** One key, after `n` episodes: the flat and the nested view agree. */
  lemma {:induction false} KeyNests(episodes: seq<seq<Option<Counts>>>, key: string, n: nat)
    requires n <= |episodes| && NoneEmpty(episodes, n)
    ensures ReportedByAll(PerEpisode(episodes), key, n) <==> ReportedByAll(Flat(episodes, n), key, |Flat(episodes, n)|)
    ensures ReportedByAll(PerEpisode(episodes), key, n) ==>
              SumOf(PerEpisode(episodes), key, n) == SumOf(Flat(episodes, n), key, |Flat(episodes, n)|)
  {
    if n > 0 {
      var before, last := Flat(episodes, n - 1), episodes[n - 1];
      KeyNests(episodes, key, n - 1);
      TotalsReportIff(last, key);
      SumOfAppend(before, last, key, |last|);
      assert PerEpisode(episodes)[n - 1] == Some(CompleteTotals(last));
      AllOfAppend(before, last, key);
    }
  }

  lemma {:induction false} AllOfAppend(a: seq<Option<Counts>>, b: seq<Option<Counts>>, key: string)
    ensures ReportedByAll(a + b, key, |a + b|) <==> ReportedByAll(a, key, |a|) && ReportedByAll(b, key, |b|)
  {
    if ReportedByAll(a + b, key, |a + b|) {
      forall i | 0 <= i < |a|
        ensures Reported(a[i], key)
      {
        assert (a + b)[i] == a[i];
      }
      forall i | 0 <= i < |b|
        ensures Reported(b[i], key)
      {
        assert (a + b)[|a| + i] == b[i];
      }
    }
  }

  lemma {:induction false} FlatIsNotEmpty<T>(episodes: seq<seq<T>>, n: nat)
    requires n <= |episodes| && NoneEmpty(episodes, n)
    ensures Flat(episodes, n) == [] <==> n == 0
  {
    if n > 0 {
      FlatIsNotEmpty(episodes, n - 1);
    }
  }

  /** The total over per-episode totals is the total over all messages exactly
      when every episode delivered a message, or nothing was reported by all. */
  lemma {:induction false} NestedTotalIsFlatIff(episodes: seq<seq<Option<Counts>>>)
    ensures CompleteTotals(PerEpisode(episodes)) == CompleteTotals(Flat(episodes, |episodes|))
            <==> NoneEmpty(episodes, |episodes|) || CompleteTotals(Flat(episodes, |episodes|)) == map[]
  {
    var n := |episodes|;
    var nested, flat := PerEpisode(episodes), Flat(episodes, n);
    if NoneEmpty(episodes, n) {
      FlatIsNotEmpty(episodes, n);
      forall key
        ensures key in CompleteTotals(nested) <==> key in CompleteTotals(flat)
        ensures key in CompleteTotals(nested) ==> CompleteTotals(nested)[key] == CompleteTotals(flat)[key]
      {
        KeyNests(episodes, key, n);
        TotalsReportIff(nested, key);
        TotalsReportIff(flat, key);
      }
      assert CompleteTotals(nested) == CompleteTotals(flat);
    } else {
      var e :| 0 <= e < n && |episodes[e]| == 0;
      assert nested[e] == Some(map[]);
      forall key
        ensures key !in CompleteTotals(nested)
      {
        TotalsReportIff(nested, key);
        assert !Reported(nested[e], key);
      }
      assert CompleteTotals(nested) == map[];
    }
  }

  /** Two episodes, the second without a message: the total of the messages is known, and
      that of the episodes is not. */
  lemma {:induction false} EmptyEpisodeHidesTheTotal()
    ensures var episodes := [[Some(map["input_tokens" := 3])], []];
            && "input_tokens" in CompleteTotals(Flat(episodes, 2))
            && CompleteTotals(PerEpisode(episodes)) == map[]
  {
    var only: Option<Counts> := Some(map["input_tokens" := 3]);
    var episodes: seq<seq<Option<Counts>>> := [[only], []];
    assert Flat(episodes, 0) == [] && Flat(episodes, 1) == [only] && Flat(episodes, 2) == [only];
    TotalsReportIff([only], "input_tokens");
    NestedTotalIsFlatIff(episodes);
    forall key
      ensures key !in CompleteTotals(PerEpisode(episodes))
    {
      TotalsReportIff(PerEpisode(episodes), key);
      assert PerEpisode(episodes)[1] == Some(CompleteTotals([])) && !Reported(PerEpisode(episodes)[1], key);
    }
  }

  lemma {:induction false} CostNests(episodes: seq<seq<Option<real>>>, n: nat)
    requires n <= |episodes| && NoneEmpty(episodes, n)
    ensures AllPriced(PerEpisodeCost(episodes), n) <==> AllPriced(Flat(episodes, n), |Flat(episodes, n)|)
    ensures AllPriced(PerEpisodeCost(episodes), n) ==>
              CostSum(PerEpisodeCost(episodes), n) == CostSum(Flat(episodes, n), |Flat(episodes, n)|)
  {
    if n > 0 {
      var before, last := Flat(episodes, n - 1), episodes[n - 1];
      CostNests(episodes, n - 1);
      CostSumAppend(before, last, |last|);
      assert PerEpisodeCost(episodes)[n - 1] == CompleteCost(last);
      AllPricedAppend(before, last);
    }
  }

  lemma {:induction false} AllPricedAppend(a: seq<Option<real>>, b: seq<Option<real>>)
    ensures AllPriced(a + b, |a + b|) <==> AllPriced(a, |a|) && AllPriced(b, |b|)
  {
    if AllPriced(a + b, |a + b|) {
      forall i | 0 <= i < |a|
        ensures a[i].Some?
      {
        assert (a + b)[i] == a[i];
      }
      forall i | 0 <= i < |b|
        ensures b[i].Some?
      {
        assert (a + b)[|a| + i] == b[i];
      }
    }
  }

  lemma {:induction false} NestedCostIsFlatIff(episodes: seq<seq<Option<real>>>)
    ensures CompleteCost(PerEpisodeCost(episodes)) == CompleteCost(Flat(episodes, |episodes|))
            <==> NoneEmpty(episodes, |episodes|) || CompleteCost(Flat(episodes, |episodes|)).None?
  {
    var n := |episodes|;
    if NoneEmpty(episodes, n) {
      CostNests(episodes, n);
      FlatIsNotEmpty(episodes, n);
    } else {
      var e :| 0 <= e < n && |episodes[e]| == 0;
      assert PerEpisodeCost(episodes)[e].None?;
    }
  }

  /** The totals of a cold relay: each episode's own summary first, then the sum of
      the summaries. */
  method RelayTotals(usages: seq<seq<Option<Counts>>>, costs: seq<seq<Option<real>>>)
    returns (usage: Counts, cost: Option<real>)
    ensures usage == CompleteTotals(Flat(usages, |usages|)) <==>
            NoneEmpty(usages, |usages|) || CompleteTotals(Flat(usages, |usages|)) == map[]
    ensures cost == CompleteCost(Flat(costs, |costs|)) <==>
            NoneEmpty(costs, |costs|) || CompleteCost(Flat(costs, |costs|)).None?
    ensures !NoneEmpty(usages, |usages|) ==> usage == map[]
    ensures !NoneEmpty(costs, |costs|) ==> cost.None?
  {
    var ofEpisodes: seq<Option<Counts>> := [];
    for e := 0 to |usages|
      invariant |ofEpisodes| == e && forall k :: 0 <= k < e ==> ofEpisodes[k] == Some(CompleteTotals(usages[k]))
    {
      var total := TotalUsage(usages[e]);
      ofEpisodes := ofEpisodes + [Some(total)];
    }
    var pricesOfEpisodes: seq<Option<real>> := [];
    for e := 0 to |costs|
      invariant |pricesOfEpisodes| == e && forall k :: 0 <= k < e ==> pricesOfEpisodes[k] == CompleteCost(costs[k])
    {
      var price := TotalCost(costs[e]);
      pricesOfEpisodes := pricesOfEpisodes + [price];
    }
    usage := TotalUsage(ofEpisodes);
    cost := TotalCost(pricesOfEpisodes);
    assert ofEpisodes == PerEpisode(usages) && pricesOfEpisodes == PerEpisodeCost(costs);
    NestedTotalIsFlatIff(usages);
    NestedCostIsFlatIff(costs);
    NothingFromAnEmptyEpisode(usages);
  }

  lemma {:induction false} NothingFromAnEmptyEpisode(episodes: seq<seq<Option<Counts>>>)
    ensures !NoneEmpty(episodes, |episodes|) ==> CompleteTotals(PerEpisode(episodes)) == map[]
  {
    if !NoneEmpty(episodes, |episodes|) {
      var e :| 0 <= e < |episodes| && |episodes[e]| == 0;
      assert PerEpisode(episodes)[e] == Some(map[]);
      forall key
        ensures key !in CompleteTotals(PerEpisode(episodes))
      {
        TotalsReportIff(PerEpisode(episodes), key);
        assert !Reported(PerEpisode(episodes)[e], key);
      }
    }
  }

  // ---------- Usage of one settle, on the driver's side ----------

  /** A message of the settled slice; `failed` is a stop reason `error` or
      `aborted`, or an error text. */
  datatype SliceMessage = SliceMessage(assistant: bool, failed: bool, usage: Option<Counts>)

  const NATIVE_KEYS := ["input", "output", "cacheRead", "cacheWrite", "totalTokens"]

  function Replies(messages: seq<SliceMessage>, n: nat): seq<Option<Counts>>
    requires n <= |messages|
  {
    if n == 0 then []
    else Replies(messages, n - 1) + (if messages[n - 1].assistant then [messages[n - 1].usage] else [])
  }

  predicate Accountable(messages: seq<SliceMessage>, n: nat)
    requires n <= |messages|
  {
    forall i :: 0 <= i < n && messages[i].assistant ==> !messages[i].failed && messages[i].usage.Some?
  }

  /** Adds up the native keys of one reply. */
  method AddNative(sums: Counts, present: set<string>, item: Counts) returns (added: Counts, seen: set<string>)
    requires forall key :: key in NATIVE_KEYS ==> key in sums
    ensures forall key :: key in NATIVE_KEYS ==>
                            && key in added && added[key] == sums[key] + CountOf(Some(item), key)
                            && (key in seen <==> key in present || key in item)
  {
    added, seen := sums, present;
    for k := 0 to |NATIVE_KEYS|
      invariant forall j :: 0 <= j < |NATIVE_KEYS| ==>
                              && NATIVE_KEYS[j] in added
                              && added[NATIVE_KEYS[j]] == sums[NATIVE_KEYS[j]] +
                                                          (if j < k then CountOf(Some(item), NATIVE_KEYS[j]) else 0)
                              && (NATIVE_KEYS[j] in seen <==>
                                  NATIVE_KEYS[j] in present || (j < k && NATIVE_KEYS[j] in item))
    {
      var key := NATIVE_KEYS[k];
      if key in item {
        seen := seen + {key};
        added := added[key := added[key] + item[key]];
      }
    }
  }

  /** The driver's total of a slice.  A key is reported as soon as ANY reply
      reported it; only a failed or entirely unreported reply makes it unknown. */
  method UsageFromSlice(messages: seq<SliceMessage>) returns (usage: Option<Counts>)
    ensures usage.Some? <==> Accountable(messages, |messages|) && Replies(messages, |messages|) != []
    ensures usage.Some? <==>
            && (exists i :: 0 <= i < |messages| && messages[i].assistant)
            && (forall i :: 0 <= i < |messages| && messages[i].assistant ==>
              !messages[i].failed && messages[i].usage.Some?)
    ensures usage.Some? ==> forall key ::
                key in usage.value <==>
                key in NATIVE_KEYS && ReportedByAny(Replies(messages, |messages|), key, |Replies(messages, |messages|)|)
    ensures usage.Some? ==> forall key :: key in usage.value ==>
                usage.value[key] == SumOf(Replies(messages, |messages|), key, |Replies(messages, |messages|)|)
  {
    var any := false;
    var sums: Counts := map key | key in NATIVE_KEYS :: 0;
    var present: set<string> := {};
    for i := 0 to |messages|
      invariant Accountable(messages, i)
      invariant any <==> Replies(messages, i) != []
      invariant forall key :: key in NATIVE_KEYS ==>
                                && key in sums && sums[key] == SumOf(Replies(messages, i), key, |Replies(messages, i)|)
                                && (key in present <==>
                                    ReportedByAny(Replies(messages, i), key, |Replies(messages, i)|))
    {
      var message := messages[i];
      if message.assistant {
        if message.failed || message.usage.None? {
          return None;
        }
        any := true;
        sums, present := AddNative(sums, present, message.usage.value);
        forall key
          ensures SumOf(Replies(messages, i + 1), key, |Replies(messages, i + 1)|) ==
                  SumOf(Replies(messages, i), key, |Replies(messages, i)|) + CountOf(message.usage, key)
          ensures ReportedByAny(Replies(messages, i + 1), key, |Replies(messages, i + 1)|) <==>
                  ReportedByAny(Replies(messages, i), key, |Replies(messages, i)|) || Reported(message.usage, key)
        {
          ReplyAppended(Replies(messages, i), message.usage, key);
        }
      } else {
        assert Replies(messages, i + 1) == Replies(messages, i);
      }
    }
    RepliesExist(messages, |messages|);
    usage := if any then Some(map key | key in NATIVE_KEYS && key in present :: sums[key]) else None;
  }

  lemma {:induction false} RepliesExist(messages: seq<SliceMessage>, n: nat)
    requires n <= |messages|
    ensures Replies(messages, n) != [] <==> exists i :: 0 <= i < n && messages[i].assistant
  {
    if n > 0 {
      RepliesExist(messages, n - 1);
    }
  }

  /** The driver's totals are over the five native counts. */
  lemma {:induction false} NativeKeysAre(key: string)
    ensures key in NATIVE_KEYS <==>
            key == "input" || key == "output" || key == "cacheRead" || key == "cacheWrite" || key == "totalTokens"
  {
    assert NATIVE_KEYS[0] == "input" && NATIVE_KEYS[1] == "output" && NATIVE_KEYS[2] == "cacheRead";
    assert NATIVE_KEYS[3] == "cacheWrite" && NATIVE_KEYS[4] == "totalTokens";
  }

  lemma {:induction false} ReplyAppended(replies: seq<Option<Counts>>, item: Option<Counts>, key: string)
    ensures SumOf(replies + [item], key, |replies| + 1) == SumOf(replies, key, |replies|) + CountOf(item, key)
    ensures ReportedByAny(replies + [item], key, |replies| + 1) <==>
            ReportedByAny(replies, key, |replies|) || Reported(item, key)
  {
    SumOfAppend(replies, [item], key, 1);
    var longer := replies + [item];
    if ReportedByAny(replies, key, |replies|) {
      var i :| 0 <= i < |replies| && Reported(replies[i], key);
      assert Reported(longer[i], key);
    }
    assert longer[|replies|] == item;
  }

  /** No reply is silent about a native key that another reply reported. */
  predicate Uniform(replies: seq<Option<Counts>>) {
    forall key :: key in NATIVE_KEYS && ReportedByAny(replies, key, |replies|) ==>
      ReportedByAll(replies, key, |replies|)
  }

  /** A settle's usage is what the documentation promises, a complete total,
      exactly when no reply is silent about a key that another reported. */
  lemma {:induction false} SliceTotalIsCompleteIff(replies: seq<Option<Counts>>, usage: Counts)
    requires replies != []
    requires forall key :: key in usage <==> key in NATIVE_KEYS && ReportedByAny(replies, key, |replies|)
    requires forall key :: key in usage ==> usage[key] == SumOf(replies, key, |replies|)
    ensures (forall key :: key in usage ==>
               key in CompleteTotals(replies) && CompleteTotals(replies)[key] == usage[key])
            <==> Uniform(replies)
  {
    forall key
      ensures key in CompleteTotals(replies) <==> ReportedByAll(replies, key, |replies|)
      ensures key in CompleteTotals(replies) ==> CompleteTotals(replies)[key] == SumOf(replies, key, |replies|)
    {
      TotalsReportIff(replies, key);
    }
  }

  /** Two replies, one silent about its cache reads: the settle reports the other's
      five tokens as the prompt's total. */
  lemma {:induction false} PartialUsageIsReported() returns (messages: seq<SliceMessage>)
    ensures Accountable(messages, |messages|)
    ensures Replies(messages, |messages|) == [Some(map["input" := 1]), Some(map["input" := 1, "cacheRead" := 5])]
    ensures ReportedByAny(Replies(messages, |messages|), "cacheRead", |Replies(messages, |messages|)|)
    ensures "cacheRead" !in CompleteTotals(Replies(messages, |messages|))
  {
    var silent, full := map["input" := 1], map["input" := 1, "cacheRead" := 5];
    messages := [SliceMessage(true, false, Some(silent)), SliceMessage(true, false, Some(full))];
    assert Replies(messages, 1) == [Some(silent)];
    var replies := Replies(messages, 2);
    assert replies == [Some(silent), Some(full)];
    assert Reported(replies[1], "cacheRead") && !Reported(replies[0], "cacheRead");
    TotalsReportIff(replies, "cacheRead");
  }

  // ---------- Usage of a relay, on the host's side ----------

  const STREAM_KEYS := ["input_tokens", "output_tokens", "cache_read_tokens", "cache_write_tokens"]

  /** A count that the merge believes. */
  predicate Believed(items: seq<Option<Counts>>, key: string) {
    forall i :: 0 <= i < |items| ==> Reported(items[i], key) && items[i].value[key] >= 0
  }

  /** Four keys, each of which every episode must report as a number that is not negative. */
  lemma {:induction false} MergedIff(usages: seq<Option<Counts>>, key: string)
    ensures key in STREAM_KEYS && Believed(usages, key) <==>
            && (|| key == "input_tokens" || key == "output_tokens"
                || key == "cache_read_tokens" || key == "cache_write_tokens")
            && forall i :: 0 <= i < |usages| ==>
                 usages[i].Some? && key in usages[i].value && usages[i].value[key] >= 0
  {
    assert STREAM_KEYS[0] == "input_tokens" && STREAM_KEYS[1] == "output_tokens";
    assert STREAM_KEYS[2] == "cache_read_tokens" && STREAM_KEYS[3] == "cache_write_tokens";
  }

  /** The merge reports, of the stream keys, those that the complete totals report and
      that no episode reported as negative; a relay with an unmeasured episode has none. */
  method MergeStreamUsages(usages: seq<Option<Counts>>) returns (merged: Option<Counts>)
    ensures merged.Some? ==> merged.value != map[] && usages != []
    ensures merged.Some? ==> forall key ::
                key in merged.value <==> key in STREAM_KEYS && Believed(usages, key)
    ensures merged.Some? ==> forall key :: key in merged.value ==>
                key in CompleteTotals(usages) && merged.value[key] == CompleteTotals(usages)[key]
    ensures merged.None? <==> usages == [] || forall key :: key in STREAM_KEYS ==> !Believed(usages, key)
  {
    if usages == [] {
      return None;
    }
    var sums: Counts := map[];
    for k := 0 to |STREAM_KEYS|
      invariant forall key :: key in sums <==> Believed(usages, key) && exists j :: 0 <= j < k && STREAM_KEYS[j] == key
      invariant forall key :: key in sums ==> sums[key] == SumOf(usages, key, |usages|)
    {
      var key := STREAM_KEYS[k];
      if Believed(usages, key) {
        sums := sums[key := SumOf(usages, key, |usages|)];
      }
    }
    forall key | key in sums
      ensures key in CompleteTotals(usages) && sums[key] == CompleteTotals(usages)[key]
    {
      assert ReportedByAll(usages, key, |usages|);
      TotalsReportIff(usages, key);
    }
    merged := if sums == map[] then None else Some(sums);
    if sums == map[] {
      forall key | key in STREAM_KEYS
        ensures !Believed(usages, key)
      {
        assert key !in sums;
      }
    } else {
      var key :| key in sums;
      assert key in STREAM_KEYS && Believed(usages, key);
    }
  }

  // ---------- Normalizing a settle's usage and cost ----------

  /** The counts under which each published token key may arrive, later first. */
  const TOKEN_KEYS: map<string, (string, string)> :=
    map["input_tokens" := ("input", "input_tokens"),
        "output_tokens" := ("output", "output_tokens"),
        "cache_read_tokens" := ("cacheRead", "cache_read_tokens"),
        "cache_write_tokens" := ("cacheWrite", "cache_write_tokens"),
        "total_tokens" := ("totalTokens", "total_tokens")]

  const FRAME_KEYS: seq<(string, string)> :=
    [("input", "input_tokens"), ("output", "output_tokens"), ("cacheRead", "cache_read_tokens"),
     ("cacheWrite", "cache_write_tokens"), ("totalTokens", "total_tokens"),
     ("input_tokens", "input_tokens"), ("output_tokens", "output_tokens"),
     ("cache_read_tokens", "cache_read_tokens"), ("cache_write_tokens", "cache_write_tokens"),
     ("total_tokens", "total_tokens")]

  /** A usable raw number: neither negative nor fractional. */
  predicate IsCount(raw: map<string, real>, key: string) {
    key in raw && raw[key] >= 0.0 && raw[key].Floor as real == raw[key]
  }

  /** The published counts of a raw usage object: for each token key the count
      under its own name, else under the native one. */
  function Normalized(raw: map<string, real>): Counts {
    map key | key in TOKEN_KEYS && (IsCount(raw, TOKEN_KEYS[key].0) || IsCount(raw, TOKEN_KEYS[key].1)) ::
      if IsCount(raw, TOKEN_KEYS[key].1) then raw[TOKEN_KEYS[key].1].Floor else raw[TOKEN_KEYS[key].0].Floor
  }

  /** The last usable source of `key` among the first `n` frame keys. */
  function LastSource(raw: map<string, real>, key: string, n: nat): Option<int>
    requires n <= |FRAME_KEYS|
  {
    if n == 0 then None
    else if FRAME_KEYS[n - 1].1 == key && IsCount(raw, FRAME_KEYS[n - 1].0) then
      Some(raw[FRAME_KEYS[n - 1].0].Floor)
    else LastSource(raw, key, n - 1)
  }

  method NormalizeUsage(raw: map<string, real>) returns (usage: Option<Counts>)
    ensures usage == if Normalized(raw) == map[] then None else Some(Normalized(raw))
  {
    var parsed: Counts := map[];
    for n := 0 to |FRAME_KEYS|
      invariant forall key :: key in parsed <==> LastSource(raw, key, n).Some?
      invariant forall key :: key in parsed ==> parsed[key] == LastSource(raw, key, n).value
    {
      var source, dest := FRAME_KEYS[n].0, FRAME_KEYS[n].1;
      if IsCount(raw, source) {
        parsed := parsed[dest := raw[source].Floor];
      }
    }
    forall key
      ensures key in parsed <==> key in Normalized(raw)
      ensures key in parsed ==> parsed[key] == Normalized(raw)[key]
    {
      LastSourceIsPreferred(raw, key);
    }
    assert parsed == Normalized(raw);
    usage := if parsed == map[] then None else Some(parsed);
  }

  /** The loop's order prefers a key's own name over its native one. */
  lemma {:induction false} LastSourceIsPreferred(raw: map<string, real>, key: string)
    ensures LastSource(raw, key, |FRAME_KEYS|).Some? <==> key in Normalized(raw)
    ensures key in Normalized(raw) ==> LastSource(raw, key, |FRAME_KEYS|).value == Normalized(raw)[key]
  {
    FrameKeysAre(raw, key, 10);
    FrameKeysAre(raw, key, 5);
  }

  /** The frame keys five at a time, so that each step stays small. */
  lemma {:induction false} FrameKeysAre(raw: map<string, real>, key: string, n: nat)
    requires n == 5 || n == 10
    ensures LastSource(raw, key, n) ==
            if key in TOKEN_KEYS && IsCount(raw, if n == 5 then TOKEN_KEYS[key].0 else TOKEN_KEYS[key].1) then
              Some(raw[if n == 5 then TOKEN_KEYS[key].0 else TOKEN_KEYS[key].1].Floor)
            else LastSource(raw, key, n - 5)
    ensures LastSource(raw, key, 0).None?
  {
    LastSourceStep(raw, key, n);
    LastSourceStep(raw, key, n - 1);
    LastSourceStep(raw, key, n - 2);
    LastSourceStep(raw, key, n - 3);
    LastSourceStep(raw, key, n - 4);
  }

  lemma {:induction false} LastSourceStep(raw: map<string, real>, key: string, n: nat)
    requires 0 < n <= |FRAME_KEYS|
    ensures LastSource(raw, key, n) ==
            if FRAME_KEYS[n - 1].1 == key && IsCount(raw, FRAME_KEYS[n - 1].0) then
              Some(raw[FRAME_KEYS[n - 1].0].Floor)
            else LastSource(raw, key, n - 1)
  {
  }

  /** A published count is reported exactly when the raw usage holds a whole number that is
      not negative under its own name or under its native one; its own name wins. */
  lemma {:induction false} CountIsKeptIff(raw: map<string, real>, own: string, native: string)
    requires || (own == "input_tokens" && native == "input") || (own == "output_tokens" && native == "output")
             || (own == "cache_read_tokens" && native == "cacheRead")
             || (own == "cache_write_tokens" && native == "cacheWrite")
             || (own == "total_tokens" && native == "totalTokens")
    ensures own in Normalized(raw) <==>
            || (own in raw && raw[own] >= 0.0 && raw[own] == raw[own].Floor as real)
            || (native in raw && raw[native] >= 0.0 && raw[native] == raw[native].Floor as real)
    ensures own in Normalized(raw) ==>
              Normalized(raw)[own] as real ==
              if own in raw && raw[own] >= 0.0 && raw[own] == raw[own].Floor as real then raw[own] else raw[native]
    ensures forall key :: key in Normalized(raw) ==>
              || key == "input_tokens" || key == "output_tokens" || key == "cache_read_tokens"
              || key == "cache_write_tokens" || key == "total_tokens"
  {
    assert own in TOKEN_KEYS && TOKEN_KEYS[own] == (native, own);
  }

  /** Zero is what the provider's kit reports without pricing, so it stays unknown. */
  function NormalizedCost(cost: Option<real>): Option<real> {
    if cost.Some? && cost.value > 0.0 then cost else None
  }

  lemma {:induction false} NormalizedIsNonNegative(raw: map<string, real>, key: string)
    requires key in Normalized(raw)
    ensures Normalized(raw)[key] >= 0 && key != ""
  {
  }
}
