/** Upgrading scorecards written before a renaming (normalize_task_attempt_scorecard
    of contracts/schemas.py), over arbitrary JSON documents.

    The code works on dictionaries: it copies one level at a time and then writes into
    the copies.  `Json` is the value that a dictionary stands for, the functions say
    what an upgrade makes of that value, and the methods at the end are the code on the
    heap: they have no `modifies` clause. */
module LegacyScorecards {
  import opened Prelude

  datatype Json =
    | Null
    | Bool(flag: bool)
    | Number(number: real)
    | Text(text: string)
    | List(items: seq<Json>)
    | Object(fields: Fields)

  type Fields = map<string, Json>

  const LEGACY_NAMES := ["tool_call_count", "tool_call_counts", "total_tool_calls"]
  const CURRENT_NAMES := ["distinct_tool_uses", "attempts_by_tool", "total_distinct_tool_uses"]

  // ---------- Renaming in one object ----------

  function Renamed<V>(m: map<string, V>, legacy: string, current: string): map<string, V> {
    if legacy in m && current !in m then m[current := m[legacy]] - {legacy} else m - {legacy}
  }

  /** The object after the first `n` renamings. */
  function Upgraded<V>(m: map<string, V>, n: nat): map<string, V>
    requires n <= |LEGACY_NAMES|
  {
    if n == 0 then m else Renamed(Upgraded(m, n - 1), LEGACY_NAMES[n - 1], CURRENT_NAMES[n - 1])
  }

  function Upgrade<V>(m: map<string, V>): map<string, V> {
    Upgraded(m, |LEGACY_NAMES|)
  }

  /** No legacy name is a key. */
  predicate Current<V>(m: map<string, V>) {
    "tool_call_count" !in m && "tool_call_counts" !in m && "total_tool_calls" !in m
  }

  /** The value a current name gets: its own, or else its legacy name's. */
  predicate Carries<V(==)>(m: map<string, V>, upgraded: map<string, V>, legacy: string, current: string) {
    && (current in upgraded <==> current in m || legacy in m)
    && (current in m && current in upgraded ==> upgraded[current] == m[current])
    && (current !in m && legacy in m && current in upgraded ==> upgraded[current] == m[legacy])
  }

  /** Both objects have the same under this key. */
  predicate Same<V(==)>(m: map<string, V>, n: map<string, V>, key: string) {
    (key in m <==> key in n) && (key in m && key in n ==> m[key] == n[key])
  }

  predicate IsRenaming(key: string) {
    key in LEGACY_NAMES || key in CURRENT_NAMES
  }

  lemma {:induction false} RenamedIs<V>(m: map<string, V>, legacy: string, current: string)
    requires legacy != current
    ensures var r := Renamed(m, legacy, current);
            && legacy !in r && Carries(m, r, legacy, current)
            && (forall key :: key != legacy && key != current ==> Same(m, r, key))
  {
  }

  /** Six names, no two of them equal. */
  lemma {:induction false} NamesDiffer(i: nat, j: nat)
    requires i < 3 && j < 3
    ensures LEGACY_NAMES[i] != CURRENT_NAMES[j]
    ensures i != j ==> LEGACY_NAMES[i] != LEGACY_NAMES[j] && CURRENT_NAMES[i] != CURRENT_NAMES[j]
  {
    assert |LEGACY_NAMES[0]| == 15 && |LEGACY_NAMES[1]| == 16 && |LEGACY_NAMES[2]| == 16;
    assert |CURRENT_NAMES[0]| == 18 && |CURRENT_NAMES[1]| == 16 && |CURRENT_NAMES[2]| == 24;
    assert LEGACY_NAMES[1][1] == 'o' && LEGACY_NAMES[2][2] == 't' && LEGACY_NAMES[1][2] == 'o';
    assert CURRENT_NAMES[1][0] == 'a' && LEGACY_NAMES[1][0] == 't' && LEGACY_NAMES[2][0] == 't';
  }

  /** The pair of names `k` after the first `n` renamings. */
  lemma {:induction false} UpgradedPair<V>(m: map<string, V>, n: nat, k: nat)
    requires n <= 3 && k < 3
    ensures var u := Upgraded(m, n);
            if k < n then LEGACY_NAMES[k] !in u && Carries(m, u, LEGACY_NAMES[k], CURRENT_NAMES[k])
            else Same(m, u, LEGACY_NAMES[k]) && Same(m, u, CURRENT_NAMES[k])
  {
    if n > 0 {
      UpgradedPair(m, n - 1, k);
      NamesDiffer(n - 1, k);
      NamesDiffer(k, n - 1);
      RenamedIs(Upgraded(m, n - 1), LEGACY_NAMES[n - 1], CURRENT_NAMES[n - 1]);
    }
  }

  lemma {:induction false} UpgradedOther<V>(m: map<string, V>, n: nat, key: string)
    requires n <= 3 && !IsRenaming(key)
    ensures Same(m, Upgraded(m, n), key)
  {
    if n > 0 {
      UpgradedOther(m, n - 1, key);
      NamesDiffer(n - 1, n - 1);
      RenamedIs(Upgraded(m, n - 1), LEGACY_NAMES[n - 1], CURRENT_NAMES[n - 1]);
    }
  }

  /** What an upgrade does: legacy names go, current names take their values unless
      they have their own, and nothing else changes. */
  lemma {:induction false} UpgradeIs<V>(m: map<string, V>)
    ensures Current(Upgrade(m))
    ensures forall k :: 0 <= k < 3 ==> Carries(m, Upgrade(m), LEGACY_NAMES[k], CURRENT_NAMES[k])
    ensures forall key :: !IsRenaming(key) ==> Same(m, Upgrade(m), key)
  {
    forall k | 0 <= k < 3
      ensures LEGACY_NAMES[k] !in Upgrade(m) && Carries(m, Upgrade(m), LEGACY_NAMES[k], CURRENT_NAMES[k])
    {
      UpgradedPair(m, 3, k);
    }
    forall key | !IsRenaming(key)
      ensures Same(m, Upgrade(m), key)
    {
      UpgradedOther(m, 3, key);
    }
    assert LEGACY_NAMES[0] == "tool_call_count" && LEGACY_NAMES[1] == "tool_call_counts";
    assert LEGACY_NAMES[2] == "total_tool_calls";
  }

  /** The three renamings, by name. */
  lemma {:induction false} NamesTell<V>(m: map<string, V>, legacy: string, current: string)
    requires || (legacy == "tool_call_count" && current == "distinct_tool_uses")
             || (legacy == "tool_call_counts" && current == "attempts_by_tool")
             || (legacy == "total_tool_calls" && current == "total_distinct_tool_uses")
    ensures legacy !in Upgrade(m) && (current in Upgrade(m) <==> current in m || legacy in m)
    ensures current in Upgrade(m) ==> Upgrade(m)[current] == if current in m then m[current] else m[legacy]
  {
    UpgradeIs(m);
    assert LEGACY_NAMES[0] == "tool_call_count" && CURRENT_NAMES[0] == "distinct_tool_uses";
    assert LEGACY_NAMES[1] == "tool_call_counts" && CURRENT_NAMES[1] == "attempts_by_tool";
    assert LEGACY_NAMES[2] == "total_tool_calls" && CURRENT_NAMES[2] == "total_distinct_tool_uses";
  }

  lemma {:induction false} CurrentIsUpgraded<V>(m: map<string, V>)
    requires Current(m)
    ensures Upgrade(m) == m
  {
    assert Upgraded(m, 1) == m;
    assert Upgraded(m, 2) == m;
  }

  // ---------- The levels of a scorecard ----------

  /** The objects of a list of objects; anything else makes the upgrade raise. */
  function ObjectsOf(value: Json): Option<seq<Fields>> {
    if value.List? && forall i :: 0 <= i < |value.items| ==> value.items[i].Object? then
      Some(seq(|value.items|, i requires 0 <= i < |value.items| => value.items[i].fields))
    else None
  }

  function ListOf(objects: seq<Fields>): Json {
    List(seq(|objects|, i requires 0 <= i < |objects| => Object(objects[i])))
  }

  lemma {:induction false} ObjectsOfList(objects: seq<Fields>)
    ensures ObjectsOf(ListOf(objects)) == Some(objects)
  {
    var items := ListOf(objects).items;
    assert forall i :: 0 <= i < |items| ==> items[i] == Object(objects[i]);
    assert ObjectsOf(ListOf(objects)).value == objects;
  }

  /** The objects under a key, if it is there. */
  function Under(m: Fields, key: string): Option<seq<Fields>> {
    if key in m then ObjectsOf(m[key]) else Some([])
  }

  function WithSummary(m: Fields): Fields {
    if "summary" in m && m["summary"].Object? then m["summary" := Object(Upgrade(m["summary"].fields))] else m
  }

  function CostUnknown(m: Fields): Fields {
    m["total_cost" := Null]
  }

  function SummaryCostUnknown(m: Fields): Fields {
    if "summary" in m && m["summary"].Object? then m["summary" := Object(CostUnknown(m["summary"].fields))] else m
  }

  predicate Unreported(vessel: Fields) {
    && "cost_sources" in vessel && vessel["cost_sources"].List?
    && Text("unreported") in vessel["cost_sources"].items
  }

  function VesselOf(vessel: Fields): Fields {
    var upgraded := Upgrade(vessel);
    if Unreported(upgraded) then CostUnknown(upgraded) else upgraded
  }

  function VesselsOf(vessels: seq<Fields>): (upgraded: seq<Fields>)
    ensures |upgraded| == |vessels|
  {
    seq(|vessels|, i requires 0 <= i < |vessels| => VesselOf(vessels[i]))
  }

  predicate AnyUnreported(vessels: seq<Fields>) {
    exists i :: 0 <= i < |vessels| && Unreported(vessels[i])
  }

  /** An upgraded comparison, and whether the cost of one of its vessels is unreported. */
  function ComparisonOf(comparison: Fields): Option<(Fields, bool)> {
    var upgraded := WithSummary(Upgrade(comparison));
    var vessels := Under(upgraded, "vessels");
    if vessels.None? then None
    else
      var unknown := AnyUnreported(VesselsOf(vessels.value));
      var costed := if unknown then SummaryCostUnknown(upgraded) else upgraded;
      Some((costed["vessels" := ListOf(VesselsOf(vessels.value))], unknown))
  }

  predicate Upgradable(comparisons: seq<Fields>) {
    forall i :: 0 <= i < |comparisons| ==> ComparisonOf(comparisons[i]).Some?
  }

  function ComparisonsOf(comparisons: seq<Fields>): (upgraded: seq<Fields>)
    requires Upgradable(comparisons)
    ensures |upgraded| == |comparisons|
  {
    seq(|comparisons|, i requires 0 <= i < |comparisons| => ComparisonOf(comparisons[i]).value.0)
  }

  predicate AnyUnknown(comparisons: seq<Fields>)
    requires Upgradable(comparisons)
  {
    exists i :: 0 <= i < |comparisons| && ComparisonOf(comparisons[i]).value.1
  }

  function Normalized(document: Fields): Option<Fields> {
    var upgraded := WithSummary(Upgrade(document));
    var comparisons := Under(upgraded, "comparisons");
    if comparisons.None? || !Upgradable(comparisons.value) then None
    else
      var listed := if comparisons.value == [] then upgraded
                    else upgraded["comparisons" := ListOf(ComparisonsOf(comparisons.value))];
      Some(if AnyUnknown(comparisons.value) then SummaryCostUnknown(listed) else listed)
  }

  // ---------- What a normalized document is ----------

  predicate SummaryCurrent(m: Fields) {
    "summary" in m && m["summary"].Object? ==> Current(m["summary"].fields)
  }

  predicate SummaryUncosted(m: Fields) {
    "summary" in m && m["summary"].Object? ==>
      "total_cost" in m["summary"].fields && m["summary"].fields["total_cost"].Null?
  }

  predicate VesselDone(vessel: Fields) {
    Current(vessel) && (Unreported(vessel) ==> "total_cost" in vessel && vessel["total_cost"].Null?)
  }

  predicate ComparisonDone(m: Fields) {
    && Current(m) && SummaryCurrent(m)
    && "vessels" in m && ObjectsOf(m["vessels"]).Some?
    && var vessels := ObjectsOf(m["vessels"]).value;
       && (forall i :: 0 <= i < |vessels| ==> VesselDone(vessels[i]))
       && (AnyUnreported(vessels) ==> SummaryUncosted(m))
  }

  predicate HasUnreported(m: Fields)
    requires ComparisonDone(m)
  {
    AnyUnreported(ObjectsOf(m["vessels"]).value)
  }

  /** No legacy name is left at any level, and the cost is unknown at each level above
      a vessel whose cost is unreported. */
  predicate Done(m: Fields) {
    && Current(m) && SummaryCurrent(m)
    && Under(m, "comparisons").Some?
    && var comparisons := Under(m, "comparisons").value;
       && (forall i :: 0 <= i < |comparisons| ==> ComparisonDone(comparisons[i]))
       && ((exists i :: 0 <= i < |comparisons| && HasUnreported(comparisons[i])) ==> SummaryUncosted(m))
  }

  lemma {:induction false} CostUnknownKeeps(m: Fields)
    ensures Current(CostUnknown(m)) <==> Current(m)
    ensures Unreported(CostUnknown(m)) <==> Unreported(m)
  {
  }

  lemma {:induction false} WithSummaryKeeps(m: Fields, key: string)
    requires key != "summary"
    ensures key in WithSummary(m) <==> key in m
    ensures key in m ==> WithSummary(m)[key] == m[key]
    ensures key in SummaryCostUnknown(m) <==> key in m
    ensures key in m ==> SummaryCostUnknown(m)[key] == m[key]
  {
  }

  lemma {:induction false} UpgradedLevel(m: Fields)
    ensures Current(WithSummary(Upgrade(m))) && SummaryCurrent(WithSummary(Upgrade(m)))
  {
    UpgradeIs(m);
    WithSummaryKeeps(Upgrade(m), "tool_call_count");
    WithSummaryKeeps(Upgrade(m), "tool_call_counts");
    WithSummaryKeeps(Upgrade(m), "total_tool_calls");
    if "summary" in Upgrade(m) && Upgrade(m)["summary"].Object? {
      UpgradeIs(Upgrade(m)["summary"].fields);
    }
  }

  lemma {:induction false} UncostedLevel(m: Fields)
    requires Current(m) && SummaryCurrent(m)
    ensures Current(SummaryCostUnknown(m)) && SummaryCurrent(SummaryCostUnknown(m))
    ensures SummaryUncosted(SummaryCostUnknown(m))
  {
    WithSummaryKeeps(m, "tool_call_count");
    WithSummaryKeeps(m, "tool_call_counts");
    WithSummaryKeeps(m, "total_tool_calls");
  }

  lemma {:induction false} VesselsAreDone(vessels: seq<Fields>)
    ensures forall i :: 0 <= i < |vessels| ==> VesselDone(VesselsOf(vessels)[i])
  {
    forall i | 0 <= i < |vessels|
      ensures VesselDone(VesselsOf(vessels)[i])
    {
      UpgradeIs(vessels[i]);
      CostUnknownKeeps(Upgrade(vessels[i]));
    }
  }

  lemma {:induction false} ListingKeeps(m: Fields, key: string, objects: seq<Fields>)
    requires key == "vessels" || key == "comparisons"
    requires Current(m) && SummaryCurrent(m)
    ensures var listed := m[key := ListOf(objects)];
            Current(listed) && SummaryCurrent(listed) && (SummaryUncosted(listed) <==> SummaryUncosted(m))
  {
    var listed := m[key := ListOf(objects)];
    assert "summary" in listed <==> "summary" in m;
  }

  lemma {:induction false} ComparisonIsDone(comparison: Fields)
    requires ComparisonOf(comparison).Some?
    ensures ComparisonDone(ComparisonOf(comparison).value.0)
    ensures HasUnreported(ComparisonOf(comparison).value.0) <==> ComparisonOf(comparison).value.1
  {
    var upgraded := WithSummary(Upgrade(comparison));
    var vessels := VesselsOf(Under(upgraded, "vessels").value);
    var costed := if AnyUnreported(vessels) then SummaryCostUnknown(upgraded) else upgraded;
    UpgradedLevel(comparison);
    UncostedLevel(upgraded);
    VesselsAreDone(Under(upgraded, "vessels").value);
    ObjectsOfList(vessels);
    ListingKeeps(costed, "vessels", vessels);
    assert ComparisonOf(comparison).value.0 == costed["vessels" := ListOf(vessels)];
  }

  /** Every upgrade that does not raise ends in a fully upgraded document. */
  lemma {:induction false} NormalizedIsDone(document: Fields)
    requires Normalized(document).Some?
    ensures Done(Normalized(document).value)
  {
    var upgraded := WithSummary(Upgrade(document));
    var comparisons := Under(upgraded, "comparisons").value;
    var now := ComparisonsOf(comparisons);
    UpgradedLevel(document);
    forall i | 0 <= i < |comparisons|
      ensures ComparisonDone(now[i]) && (HasUnreported(now[i]) <==> ComparisonOf(comparisons[i]).value.1)
    {
      ComparisonIsDone(comparisons[i]);
    }
    var listed := if comparisons == [] then upgraded else upgraded["comparisons" := ListOf(now)];
    ObjectsOfList(now);
    ListingKeeps(upgraded, "comparisons", now);
    UncostedLevel(listed);
    WithSummaryKeeps(listed, "comparisons");
    assert Under(listed, "comparisons") == Some(now);
    assert Under(SummaryCostUnknown(listed), "comparisons") == Some(now);
  }

  // ---------- What an upgrade keeps ----------

  /** Everything at this level is that of the renamed object, but for the list under
      `inner`; the summary is renamed in turn, and its cost unknown if it must be. */
  ghost predicate KeepsLevel(m: Fields, r: Fields, inner: string, unknown: bool) {
    var u := Upgrade(m);
    && (forall key :: key != "summary" && key != inner ==> Same(u, r, key))
    && (if "summary" in u && u["summary"].Object? then
          && "summary" in r && r["summary"].Object?
          && var before, after := Upgrade(u["summary"].fields), r["summary"].fields;
             && (forall key :: key != "total_cost" ==> Same(before, after, key))
             && (if unknown then "total_cost" in after && after["total_cost"] == Null
                 else Same(before, after, "total_cost"))
        else Same(u, r, "summary"))
  }

  ghost predicate CostIsUnreported(vessel: Fields) {
    && "cost_sources" in vessel && vessel["cost_sources"].List?
    && exists i :: 0 <= i < |vessel["cost_sources"].items| && vessel["cost_sources"].items[i] == Text("unreported")
  }

  /** A vessel is renamed, and its cost unknown exactly when one of its sources is. */
  lemma {:induction false} VesselTells(vessel: Fields)
    ensures var u, r := Upgrade(vessel), VesselOf(vessel);
            && (forall key :: key != "total_cost" ==> Same(u, r, key))
            && (if CostIsUnreported(u) then "total_cost" in r && r["total_cost"] == Null
                else Same(u, r, "total_cost"))
  {
  }

  /** A comparison keeps its level and upgrades its vessels one by one; its cost is unknown
      exactly when that of one of them is. */
  lemma {:induction false} ComparisonTells(comparison: Fields)
    requires ComparisonOf(comparison).Some?
    ensures var r, unknown := ComparisonOf(comparison).value.0, ComparisonOf(comparison).value.1;
            var vessels := Under(Upgrade(comparison), "vessels").value;
            && KeepsLevel(comparison, r, "vessels", unknown)
            && "vessels" in r && ObjectsOf(r["vessels"]).Some?
            && var upgraded := ObjectsOf(r["vessels"]).value;
               && |upgraded| == |vessels|
               && (forall i :: 0 <= i < |vessels| ==> upgraded[i] == VesselOf(vessels[i]))
               && (unknown <==> exists i :: 0 <= i < |vessels| && CostIsUnreported(Upgrade(vessels[i])))
  {
    var u := WithSummary(Upgrade(comparison));
    WithSummaryKeeps(Upgrade(comparison), "vessels");
    var vessels := Under(u, "vessels").value;
    ObjectsOfList(VesselsOf(vessels));
    forall i | 0 <= i < |vessels|
      ensures Unreported(VesselOf(vessels[i])) <==> CostIsUnreported(Upgrade(vessels[i]))
    {
      CostUnknownKeeps(Upgrade(vessels[i]));
    }
  }

  /** A document keeps its level and upgrades its comparisons one by one; its cost is
      unknown exactly when that of one of them is. */
  lemma {:induction false} DocumentTells(document: Fields)
    requires Normalized(document).Some?
    ensures Under(Upgrade(document), "comparisons").Some? && Upgradable(Under(Upgrade(document), "comparisons").value)
    ensures var r, comparisons := Normalized(document).value, Under(Upgrade(document), "comparisons").value;
            && KeepsLevel(document, r, "comparisons", AnyUnknown(comparisons))
            && Under(r, "comparisons") == Some(ComparisonsOf(comparisons))
            && ("comparisons" in r <==> "comparisons" in Upgrade(document))
  {
    var u := WithSummary(Upgrade(document));
    WithSummaryKeeps(Upgrade(document), "comparisons");
    var comparisons := Under(u, "comparisons").value;
    ObjectsOfList(ComparisonsOf(comparisons));
    var listed := if comparisons == [] then u else u["comparisons" := ListOf(ComparisonsOf(comparisons))];
    WithSummaryKeeps(listed, "comparisons");
  }

  // ---------- Upgrading again changes nothing ----------

  lemma {:induction false} SameSummary(m: Fields)
    requires Current(m) && SummaryCurrent(m)
    ensures WithSummary(Upgrade(m)) == m
  {
    CurrentIsUpgraded(m);
    if "summary" in m && m["summary"].Object? {
      CurrentIsUpgraded(m["summary"].fields);
      assert m["summary" := m["summary"]] == m;
    }
  }

  lemma {:induction false} SameCost(m: Fields)
    requires SummaryUncosted(m)
    ensures SummaryCostUnknown(m) == m
  {
    if "summary" in m && m["summary"].Object? {
      var summary := m["summary"].fields;
      assert summary["total_cost" := Null] == summary;
      assert m["summary" := m["summary"]] == m;
    }
  }

  lemma {:induction false} SameVessels(vessels: seq<Fields>)
    requires forall i :: 0 <= i < |vessels| ==> VesselDone(vessels[i])
    ensures VesselsOf(vessels) == vessels
  {
    forall i | 0 <= i < |vessels|
      ensures VesselOf(vessels[i]) == vessels[i]
    {
      CurrentIsUpgraded(vessels[i]);
      if Unreported(vessels[i]) {
        assert vessels[i]["total_cost" := Null] == vessels[i];
      }
    }
  }

  lemma {:induction false} ListOfObjects(value: Json)
    requires ObjectsOf(value).Some?
    ensures ListOf(ObjectsOf(value).value) == value
  {
    assert ListOf(ObjectsOf(value).value).items == value.items;
  }

  lemma {:induction false} SameComparison(m: Fields)
    requires ComparisonDone(m)
    ensures ComparisonOf(m) == Some((m, HasUnreported(m)))
  {
    var vessels := ObjectsOf(m["vessels"]).value;
    SameSummary(m);
    SameVessels(vessels);
    ListOfObjects(m["vessels"]);
    if AnyUnreported(vessels) {
      SameCost(m);
    }
    assert m["vessels" := m["vessels"]] == m;
  }

  lemma {:induction false} SameDocument(m: Fields)
    requires Done(m)
    ensures Normalized(m) == Some(m)
  {
    var comparisons := Under(m, "comparisons").value;
    SameSummary(m);
    forall i | 0 <= i < |comparisons|
      ensures ComparisonOf(comparisons[i]) == Some((comparisons[i], HasUnreported(comparisons[i])))
    {
      SameComparison(comparisons[i]);
    }
    assert ComparisonsOf(comparisons) == comparisons;
    if comparisons != [] {
      ListOfObjects(m["comparisons"]);
      assert m["comparisons" := m["comparisons"]] == m;
    }
    if AnyUnknown(comparisons) {
      SameCost(m);
    }
  }

  /** Normalizing is idempotent. */
  lemma {:induction false} NormalizingTwiceIsOnce(document: Fields)
    requires Normalized(document).Some?
    ensures Normalized(Normalized(document).value) == Normalized(document)
  {
    NormalizedIsDone(document);
    SameDocument(Normalized(document).value);
  }

  /** A document is left as it is exactly when it is fully upgraded already. */
  lemma {:induction false} UnchangedIff(document: Fields)
    ensures Normalized(document) == Some(document) <==> Done(document)
  {
    if Normalized(document) == Some(document) {
      NormalizedIsDone(document);
    } else if Done(document) {
      SameDocument(document);
    }
  }

  // ---------- The code on the heap ----------

  datatype Value =
    | NullValue
    | BoolValue(flag: bool)
    | NumberValue(number: real)
    | TextValue(text: string)
    | ListValue(items: seq<Value>)
    | DictValue(dict: Dict)

  type Entries = map<string, Value>

  /** A dictionary; its level is above those of the dictionaries in it. */
  class Dict {
    ghost const level: nat
    var fields: Entries

    constructor (fields: Entries, ghost level: nat)
      ensures this.fields == fields && this.level == level
    {
      this.fields, this.level := fields, level;
    }
  }

  ghost function Rank(v: Value): nat {
    match v
    case ListValue(items) => RankUpTo(items, |items|)
    case DictValue(dict) => dict.level + 1
    case _ => 0
  }

  ghost function RankUpTo(items: seq<Value>, n: nat): (rank: nat)
    requires n <= |items|
    ensures forall i :: 0 <= i < n ==> Rank(items[i]) <= rank
    decreases items, n
  {
    if n == 0 then 0
    else
      var before, last := RankUpTo(items, n - 1), Rank(items[n - 1]);
      if before < last then last else before
  }

  /** Every dictionary that the value names is one of these. */
  ghost predicate In(v: Value, dicts: set<Dict>) {
    match v
    case ListValue(items) => forall i :: 0 <= i < |items| ==> In(items[i], dicts)
    case DictValue(dict) => dict in dicts
    case _ => true
  }

  ghost predicate AllIn(m: Entries, level: nat, dicts: set<Dict>) {
    forall key :: key in m ==> In(m[key], dicts) && Rank(m[key]) <= level
  }

  /** Whatever is reachable from these dictionaries is among them, without a cycle. */
  ghost predicate Closed(dicts: set<Dict>)
    reads dicts
  {
    forall d :: d in dicts ==> AllIn(d.fields, d.level, dicts)
  }

  /** The JSON value that a value on the heap stands for. */
  ghost function ToJson(v: Value, dicts: set<Dict>): Json
    requires Closed(dicts) && In(v, dicts)
    reads dicts
    decreases Rank(v), v, 0
  {
    match v
    case NullValue => Null
    case BoolValue(flag) => Bool(flag)
    case NumberValue(number) => Number(number)
    case TextValue(text) => Text(text)
    case ListValue(items) => List(ToJsons(items, |items|, dicts))
    case DictValue(dict) => Object(map key | key in dict.fields :: ToJson(dict.fields[key], dicts))
  }

  ghost function ToJsons(items: seq<Value>, n: nat, dicts: set<Dict>): (jsons: seq<Json>)
    requires n <= |items| && Closed(dicts) && forall i :: 0 <= i < |items| ==> In(items[i], dicts)
    reads dicts
    ensures |jsons| == n && forall i :: 0 <= i < n ==> jsons[i] == ToJson(items[i], dicts)
    decreases RankUpTo(items, |items|), items, n
  {
    if n == 0 then [] else ToJsons(items, n - 1, dicts) + [ToJson(items[n - 1], dicts)]
  }

  /** The JSON object that the entries of a dictionary stand for. */
  ghost function JsonOf(m: Entries, level: nat, dicts: set<Dict>): Fields
    requires Closed(dicts) && AllIn(m, level, dicts)
    reads dicts
  {
    map key | key in m :: ToJson(m[key], dicts)
  }

  // ----- More dictionaries beside them change nothing -----

  lemma {:induction false} JsonGrows(v: Value, dicts: set<Dict>, more: set<Dict>)
    requires Closed(dicts) && Closed(more) && dicts <= more && In(v, dicts)
    ensures In(v, more) && ToJson(v, more) == ToJson(v, dicts)
    decreases Rank(v), v
  {
    match v
    case ListValue(items) =>
      forall i | 0 <= i < |items|
        ensures In(items[i], more) && ToJson(items[i], more) == ToJson(items[i], dicts)
      {
        JsonGrows(items[i], dicts, more);
      }
      assert ToJsons(items, |items|, more) == ToJsons(items, |items|, dicts);
    case DictValue(dict) =>
      forall key | key in dict.fields
        ensures ToJson(dict.fields[key], more) == ToJson(dict.fields[key], dicts)
      {
        JsonGrows(dict.fields[key], dicts, more);
      }
    case _ =>
  }

  lemma {:induction false} EntriesGrow(m: Entries, level: nat, dicts: set<Dict>, more: set<Dict>)
    requires Closed(dicts) && Closed(more) && dicts <= more && AllIn(m, level, dicts)
    ensures AllIn(m, level, more) && JsonOf(m, level, more) == JsonOf(m, level, dicts)
  {
    forall key | key in m
      ensures In(m[key], more) && ToJson(m[key], more) == ToJson(m[key], dicts)
    {
      JsonGrows(m[key], dicts, more);
    }
  }

  lemma {:induction false} InGrows(v: Value, dicts: set<Dict>, more: set<Dict>)
    requires dicts <= more && In(v, dicts)
    ensures In(v, more)
    decreases v
  {
    if v.ListValue? {
      forall i | 0 <= i < |v.items|
        ensures In(v.items[i], more)
      {
        InGrows(v.items[i], dicts, more);
      }
    }
  }

  /** New dictionaries whose entries name old ones only. */
  lemma {:induction false} LayerIsClosed(dicts: set<Dict>, layer: set<Dict>)
    requires Closed(dicts) && forall d :: d in layer ==> AllIn(d.fields, d.level, dicts)
    ensures Closed(dicts + layer)
    ensures forall d :: d in layer ==>
              && AllIn(d.fields, d.level, dicts + layer)
              && JsonOf(d.fields, d.level, dicts + layer) == JsonOf(d.fields, d.level, dicts)
  {
    forall d, key | d in dicts + layer && key in d.fields
      ensures In(d.fields[key], dicts + layer)
    {
      InGrows(d.fields[key], dicts, dicts + layer);
    }
    forall d | d in layer
      ensures JsonOf(d.fields, d.level, dicts + layer) == JsonOf(d.fields, d.level, dicts)
    {
      EntriesGrow(d.fields, d.level, dicts, dicts + layer);
    }
  }

  /** Two closed sets together. */
  lemma {:induction false} UnionIsClosed(dicts: set<Dict>, more: set<Dict>)
    requires Closed(dicts) && Closed(more)
    ensures Closed(dicts + more)
  {
    forall d, key | d in dicts + more && key in d.fields
      ensures In(d.fields[key], dicts + more)
    {
      if d in dicts {
        InGrows(d.fields[key], dicts, dicts + more);
      } else {
        InGrows(d.fields[key], more, dicts + more);
      }
    }
  }

  // ----- Renaming on the heap is renaming of the value -----

  lemma {:induction false} UpgradeOfEntries(m: Entries, level: nat, dicts: set<Dict>, n: nat)
    requires n <= 3 && Closed(dicts) && AllIn(m, level, dicts)
    ensures AllIn(Upgraded(m, n), level, dicts)
    ensures JsonOf(Upgraded(m, n), level, dicts) == Upgraded(JsonOf(m, level, dicts), n)
  {
    if n > 0 {
      UpgradeOfEntries(m, level, dicts, n - 1);
      RenamingOfEntries(Upgraded(m, n - 1), level, dicts, LEGACY_NAMES[n - 1], CURRENT_NAMES[n - 1]);
    }
  }

  lemma {:induction false} RenamingOfEntries(m: Entries, level: nat, dicts: set<Dict>, legacy: string, current: string)
    requires Closed(dicts) && AllIn(m, level, dicts)
    ensures AllIn(Renamed(m, legacy, current), level, dicts)
    ensures JsonOf(Renamed(m, legacy, current), level, dicts) == Renamed(JsonOf(m, level, dicts), legacy, current)
  {
    var r := Renamed(m, legacy, current);
    forall key | key in r
      ensures In(r[key], dicts) && Rank(r[key]) <= level
    {
      assert r[key] == (if key == current && current !in m then m[legacy] else m[key]);
    }
  }

  lemma {:induction false} EntryWritten(m: Entries, level: nat, dicts: set<Dict>, key: string, v: Value)
    requires Closed(dicts) && AllIn(m, level, dicts) && In(v, dicts) && Rank(v) <= level
    ensures AllIn(m[key := v], level, dicts)
    ensures JsonOf(m[key := v], level, dicts) == JsonOf(m, level, dicts)[key := ToJson(v, dicts)]
  {
  }

  /** `upgraded = dict(payload)`, then renames in the copy. */
  method CopyUpgraded(payload: Dict) returns (upgraded: Dict)
    ensures fresh(upgraded) && upgraded.level == payload.level
    ensures upgraded.fields == Upgrade(payload.fields)
  {
    upgraded := new Dict(payload.fields, payload.level);
    for n := 0 to |LEGACY_NAMES|
      invariant upgraded.fields == Upgraded(payload.fields, n)
    {
      var legacy, current := LEGACY_NAMES[n], CURRENT_NAMES[n];
      if legacy in upgraded.fields && current !in upgraded.fields {
        upgraded.fields := upgraded.fields[current := upgraded.fields[legacy]];
      }
      upgraded.fields := upgraded.fields - {legacy};
    }
  }

  // ----- Vessels -----

  predicate UnreportedEntries(m: Entries) {
    && "cost_sources" in m && m["cost_sources"].ListValue?
    && TextValue("unreported") in m["cost_sources"].items
  }

  function CostForgotten(m: Entries): Entries {
    if UnreportedEntries(m) then m["total_cost" := NullValue] else m
  }

  function VesselEntries(m: Entries): Entries {
    CostForgotten(Upgrade(m))
  }

  lemma {:induction false} UnreportedIs(m: Entries, level: nat, dicts: set<Dict>)
    requires Closed(dicts) && AllIn(m, level, dicts)
    ensures UnreportedEntries(m) <==> Unreported(JsonOf(m, level, dicts))
  {
    if "cost_sources" in m && m["cost_sources"].ListValue? {
      var items := m["cost_sources"].items;
      var jsons := ToJsons(items, |items|, dicts);
      assert ToJson(m["cost_sources"], dicts) == List(jsons);
      if Text("unreported") in jsons {
        var i :| 0 <= i < |jsons| && jsons[i] == Text("unreported");
        assert ToJson(items[i], dicts) == Text("unreported");
        assert items[i] == TextValue("unreported");
      }
      if TextValue("unreported") in items {
        var i :| 0 <= i < |items| && items[i] == TextValue("unreported");
        assert jsons[i] == ToJson(items[i], dicts);
      }
    }
  }

  lemma {:induction false} VesselJson(m: Entries, level: nat, dicts: set<Dict>)
    requires Closed(dicts) && AllIn(m, level, dicts)
    ensures AllIn(VesselEntries(m), level, dicts)
    ensures JsonOf(VesselEntries(m), level, dicts) == VesselOf(JsonOf(m, level, dicts))
    ensures UnreportedEntries(Upgrade(m)) <==> Unreported(VesselOf(JsonOf(m, level, dicts)))
  {
    UpgradeOfEntries(m, level, dicts, 3);
    UnreportedIs(Upgrade(m), level, dicts);
    EntryWritten(Upgrade(m), level, dicts, "total_cost", NullValue);
    CostUnknownKeeps(Upgrade(JsonOf(m, level, dicts)));
  }

  function Members(listed: seq<Dict>): set<Dict> {
    set d | d in listed
  }

  /** What the listed dictionaries hold. */
  ghost function EntriesOf(listed: seq<Dict>, n: nat): (entries: seq<Entries>)
    requires n <= |listed|
    reads listed
    ensures |entries| == n && forall i :: 0 <= i < n ==> entries[i] == listed[i].fields
  {
    if n == 0 then [] else EntriesOf(listed, n - 1) + [listed[n - 1].fields]
  }

  predicate AnyUnreportedEntries(vessels: seq<Entries>) {
    exists i :: 0 <= i < |vessels| && UnreportedEntries(Upgrade(vessels[i]))
  }

  /** The copies of these vessels, when their entries were `sources`. */
  ghost predicate VesselsCopied(vessels: seq<Dict>, sources: seq<Entries>, copies: seq<Entries>, now: seq<Dict>) {
    && |now| == |copies| == |sources| == |vessels|
    && forall i :: 0 <= i < |now| ==>
      now[i].level == vessels[i].level && copies[i] == VesselEntries(sources[i])
  }

  method CopyVessels(vessels: seq<Dict>) returns (copies: seq<Dict>)
    ensures |copies| == |vessels|
    ensures forall i :: 0 <= i < |copies| ==>
              && fresh(copies[i]) && copies[i].level == vessels[i].level
              && copies[i].fields == Upgrade(vessels[i].fields)
    ensures forall j, k :: 0 <= j < k < |copies| ==> copies[j] != copies[k]
  {
    copies := [];
    for i := 0 to |vessels|
      invariant |copies| == i
      invariant forall j :: 0 <= j < i ==>
                  && fresh(copies[j]) && copies[j].level == vessels[j].level
                  && copies[j].fields == Upgrade(vessels[j].fields)
      invariant forall j, k :: 0 <= j < k < i ==> copies[j] != copies[k]
    {
      var copy := CopyUpgraded(vessels[i]);
      copies := copies + [copy];
    }
  }

  /** Writes the unknown costs into the copied vessels, in place. */
  method ForgetVesselCosts(copies: seq<Dict>) returns (unknown: bool)
    requires forall j, k :: 0 <= j < k < |copies| ==> copies[j] != copies[k]
    modifies copies
    ensures forall i :: 0 <= i < |copies| ==> copies[i].fields == CostForgotten(old(copies[i].fields))
    ensures unknown <==> exists i :: 0 <= i < |copies| && UnreportedEntries(old(copies[i].fields))
  {
    unknown := false;
    for i := 0 to |copies|
      invariant forall j :: 0 <= j < i ==> copies[j].fields == CostForgotten(old(copies[j].fields))
      invariant forall j :: i <= j < |copies| ==> copies[j].fields == old(copies[j].fields)
      invariant unknown <==> exists j :: 0 <= j < i && UnreportedEntries(old(copies[j].fields))
    {
      if UnreportedEntries(copies[i].fields) {
        copies[i].fields := copies[i].fields["total_cost" := NullValue];
        unknown := true;
      }
    }
  }

  /** Copies every vessel first, then writes into the copies. */
  method UpgradeVessels(vessels: seq<Dict>) returns (upgraded: seq<Dict>, unknown: bool)
    ensures forall d :: d in upgraded ==> fresh(d)
    ensures VesselsCopied(vessels, EntriesOf(vessels, |vessels|), EntriesOf(upgraded, |upgraded|), upgraded)
    ensures unknown <==> AnyUnreportedEntries(EntriesOf(vessels, |vessels|))
  {
    upgraded := CopyVessels(vessels);
    unknown := ForgetVesselCosts(upgraded);
  }

  // ----- One level with its summary -----

  predicate HasSummary(m: Entries) {
    "summary" in m && m["summary"].DictValue?
  }

  /** The upgraded copy of a level and of its summary, if that is a dictionary. */
  ghost predicate LevelCopied(m: Entries, upgraded: Dict, summary: Option<Dict>)
    reads upgraded
  {
    var up := Upgrade(m);
    && (summary.Some? <==> HasSummary(up))
    && upgraded.fields == (if summary.Some? then up["summary" := DictValue(summary.value)] else up)
  }

  /** What the copied summary holds, with its cost unknown or not. */
  ghost predicate SummaryCopied(m: Entries, summary: Option<Dict>, unknown: bool)
    reads if summary.Some? then {summary.value} else {}
    reads if HasSummary(Upgrade(m)) then {Upgrade(m)["summary"].dict} else {}
  {
    summary.Some? && HasSummary(Upgrade(m)) ==>
      var source := Upgrade(m)["summary"].dict;
      && summary.value.level == source.level
      && summary.value.fields ==
         if unknown then Upgrade(source.fields)["total_cost" := NullValue] else Upgrade(source.fields)
  }

  lemma {:induction false} SummaryStays(m: Entries)
    ensures Same(m, Upgrade(m), "summary")
  {
    UpgradeIs(m);
    assert |"summary"| == 7 && !IsRenaming("summary");
  }

  method UpgradeLevel(payload: Dict) returns (upgraded: Dict, summary: Option<Dict>)
    ensures fresh(upgraded) && upgraded.level == payload.level
    ensures summary.Some? ==> fresh(summary.value) && summary.value != upgraded
    ensures LevelCopied(payload.fields, upgraded, summary) && SummaryCopied(payload.fields, summary, false)
  {
    upgraded := CopyUpgraded(payload);
    summary := None;
    SummaryStays(payload.fields);
    if HasSummary(upgraded.fields) {
      var copy := CopyUpgraded(upgraded.fields["summary"].dict);
      upgraded.fields := upgraded.fields["summary" := DictValue(copy)];
      summary := Some(copy);
    }
  }

  /** What a copied summary stands for. */
  lemma {:induction false} SummaryJson(m: Entries, level: nat, dicts: set<Dict>, summary: Dict, unknown: bool)
    requires Closed(dicts) && AllIn(m, level, dicts)
    requires HasSummary(Upgrade(m)) && SummaryCopied(m, Some(summary), unknown)
    ensures summary.level < level && AllIn(summary.fields, summary.level, dicts)
    ensures var up := Upgrade(JsonOf(m, level, dicts));
            && "summary" in up && up["summary"].Object?
            && var json := Upgrade(up["summary"].fields);
               JsonOf(summary.fields, summary.level, dicts) == if unknown then CostUnknown(json) else json
  {
    UpgradeOfEntries(m, level, dicts, 3);
    var source := Upgrade(m)["summary"].dict;
    assert ToJson(DictValue(source), dicts) == Object(JsonOf(source.fields, source.level, dicts));
    UpgradeOfEntries(source.fields, source.level, dicts, 3);
    EntryWritten(Upgrade(source.fields), source.level, dicts, "total_cost", NullValue);
  }

  lemma {:induction false} LevelJson(m: Entries, level: nat, dicts: set<Dict>, more: set<Dict>, upgraded: Entries,
                                     summary: Option<Dict>, unknown: bool)
    requires Closed(dicts) && AllIn(m, level, dicts) && Closed(more) && dicts <= more
    requires summary.Some? <==> HasSummary(Upgrade(m))
    requires summary.Some? ==> summary.value in more && SummaryCopied(m, summary, unknown)
    requires upgraded == if summary.Some? then Upgrade(m)["summary" := DictValue(summary.value)] else Upgrade(m)
    ensures AllIn(upgraded, level, more)
    ensures var json := WithSummary(Upgrade(JsonOf(m, level, dicts)));
            JsonOf(upgraded, level, more) == if unknown then SummaryCostUnknown(json) else json
  {
    UpgradeOfEntries(m, level, dicts, 3);
    EntriesGrow(Upgrade(m), level, dicts, more);
    var up := Upgrade(JsonOf(m, level, dicts));
    if summary.Some? {
      var sum := summary.value;
      SummaryJson(m, level, dicts, sum, unknown);
      EntriesGrow(sum.fields, sum.level, dicts, more);
      assert ToJson(DictValue(sum), more) == Object(JsonOf(sum.fields, sum.level, more));
      EntryWritten(Upgrade(m), level, more, "summary", DictValue(sum));
    } else if "summary" in Upgrade(m) {
      assert up["summary"] == ToJson(Upgrade(m)["summary"], dicts);
    }
  }

  // ----- Lists of dictionaries -----

  /** The dictionaries of a list of dictionaries; anything else makes the upgrade raise. */
  function DictsOf(value: Value): Option<seq<Dict>> {
    if value.ListValue? && forall i :: 0 <= i < |value.items| ==> value.items[i].DictValue? then
      Some(seq(|value.items|, i requires 0 <= i < |value.items| => value.items[i].dict))
    else None
  }

  function DictsUnder(m: Entries, key: string): Option<seq<Dict>> {
    if key in m then DictsOf(m[key]) else Some([])
  }

  function Listed(listed: seq<Dict>): Value {
    ListValue(seq(|listed|, i requires 0 <= i < |listed| => DictValue(listed[i])))
  }

  /** The listed dictionaries stand for the listed objects. */
  ghost predicate StandFor(listed: seq<Dict>, objects: seq<Fields>, dicts: set<Dict>)
    requires Closed(dicts)
    reads dicts, listed
  {
    && |listed| == |objects|
    && forall i :: 0 <= i < |listed| ==>
      AllIn(listed[i].fields, listed[i].level, dicts) && JsonOf(listed[i].fields, listed[i].level, dicts) == objects[i]
  }

  lemma {:induction false} DictsOfIs(value: Value, dicts: set<Dict>)
    requires Closed(dicts) && In(value, dicts)
    ensures DictsOf(value).Some? <==> ObjectsOf(ToJson(value, dicts)).Some?
    ensures DictsOf(value).Some? ==>
              && (forall i :: 0 <= i < |DictsOf(value).value| ==>
                DictsOf(value).value[i] in dicts && DictsOf(value).value[i].level < Rank(value))
              && StandFor(DictsOf(value).value, ObjectsOf(ToJson(value, dicts)).value, dicts)
  {
    if value.ListValue? {
      var items, jsons := value.items, ToJsons(value.items, |value.items|, dicts);
      assert ToJson(value, dicts) == List(jsons);
      forall i | 0 <= i < |items|
        ensures items[i].DictValue? <==> jsons[i].Object?
        ensures items[i].DictValue? ==>
                  var d := items[i].dict;
                  && d in dicts && d.level < Rank(items[i]) <= Rank(value)
                  && AllIn(d.fields, d.level, dicts) && jsons[i] == Object(JsonOf(d.fields, d.level, dicts))
      {
        assert jsons[i] == ToJson(items[i], dicts);
      }
    }
  }

  lemma {:induction false} DictsUnderIs(m: Entries, level: nat, dicts: set<Dict>, key: string)
    requires Closed(dicts) && AllIn(m, level, dicts)
    ensures DictsUnder(m, key).Some? <==> Under(JsonOf(m, level, dicts), key).Some?
    ensures DictsUnder(m, key).Some? ==>
              && (forall i :: 0 <= i < |DictsUnder(m, key).value| ==>
                DictsUnder(m, key).value[i] in dicts && DictsUnder(m, key).value[i].level < level)
              && StandFor(DictsUnder(m, key).value, Under(JsonOf(m, level, dicts), key).value, dicts)
  {
    if key in m {
      DictsOfIs(m[key], dicts);
    }
  }

  lemma {:induction false} RankIsAtMost(items: seq<Value>, n: nat, level: nat)
    requires n <= |items| && forall i :: 0 <= i < n ==> Rank(items[i]) <= level
    ensures RankUpTo(items, n) <= level
  {
    if n > 0 {
      RankIsAtMost(items, n - 1, level);
    }
  }

  /** A list of dictionaries that stand for objects is the list of those objects. */
  lemma {:induction false} ListedJson(listed: seq<Dict>, objects: seq<Fields>, level: nat, dicts: set<Dict>)
    requires Closed(dicts) && StandFor(listed, objects, dicts)
    requires forall i :: 0 <= i < |listed| ==> listed[i] in dicts && listed[i].level < level
    ensures In(Listed(listed), dicts) && Rank(Listed(listed)) <= level
    ensures ToJson(Listed(listed), dicts) == ListOf(objects)
  {
    var items := Listed(listed).items;
    RankIsAtMost(items, |items|, level);
    forall i | 0 <= i < |listed|
      ensures ToJson(items[i], dicts) == Object(objects[i])
    {
      assert items[i] == DictValue(listed[i]);
      assert ToJson(items[i], dicts) == Object(JsonOf(listed[i].fields, listed[i].level, dicts));
    }
    assert ToJsons(items, |items|, dicts) == ListOf(objects).items;
  }

  // ----- Comparisons -----

  function Maybe(summary: Option<Dict>): set<Dict> {
    if summary.Some? then {summary.value} else {}
  }

  /** The copied vessels of a level stand for its upgraded vessels. */
  lemma {:induction false} VesselsJson(m: Entries, level: nat, dicts: set<Dict>, vessels: seq<Dict>, now: seq<Dict>)
    requires Closed(dicts) && AllIn(m, level, dicts) && DictsUnder(Upgrade(m), "vessels") == Some(vessels)
    requires VesselsCopied(vessels, EntriesOf(vessels, |vessels|), EntriesOf(now, |now|), now)
    ensures var objects := Under(Upgrade(JsonOf(m, level, dicts)), "vessels");
            && objects.Some? && StandFor(now, VesselsOf(objects.value), dicts)
            && (AnyUnreported(VesselsOf(objects.value)) <==> AnyUnreportedEntries(EntriesOf(vessels, |vessels|)))
    ensures forall i :: 0 <= i < |now| ==> now[i].level < level
  {
    UpgradeOfEntries(m, level, dicts, 3);
    DictsUnderIs(Upgrade(m), level, dicts, "vessels");
    forall i | 0 <= i < |now|
      ensures AllIn(now[i].fields, now[i].level, dicts)
      ensures JsonOf(now[i].fields, now[i].level, dicts) ==
              VesselOf(JsonOf(vessels[i].fields, vessels[i].level, dicts))
      ensures UnreportedEntries(Upgrade(vessels[i].fields)) <==>
              Unreported(VesselOf(JsonOf(vessels[i].fields, vessels[i].level, dicts)))
    {
      VesselJson(vessels[i].fields, vessels[i].level, dicts);
    }
  }

  lemma {:induction false} StandForGrows(listed: seq<Dict>, objects: seq<Fields>, dicts: set<Dict>, more: set<Dict>)
    requires Closed(dicts) && Closed(more) && dicts <= more && StandFor(listed, objects, dicts)
    ensures StandFor(listed, objects, more)
  {
    forall i | 0 <= i < |listed|
      ensures AllIn(listed[i].fields, listed[i].level, more)
      ensures JsonOf(listed[i].fields, listed[i].level, more) == objects[i]
    {
      EntriesGrow(listed[i].fields, listed[i].level, dicts, more);
    }
  }

  /** A level, copied with its summary, whose key now holds a list of other copies. */
  lemma {:induction false} ListedLevelJson(m: Entries, level: nat, dicts: set<Dict>, more: set<Dict>,
                                           summary: Option<Dict>, unknown: bool, key: string, listed: seq<Dict>,
                                           objects: seq<Fields>)
    requires Closed(dicts) && AllIn(m, level, dicts) && Closed(more) && dicts <= more
    requires summary.Some? <==> HasSummary(Upgrade(m))
    requires summary.Some? ==> summary.value in more && SummaryCopied(m, summary, unknown)
    requires StandFor(listed, objects, more)
    requires forall i :: 0 <= i < |listed| ==> listed[i] in more && listed[i].level < level
    ensures var copy := if summary.Some? then Upgrade(m)["summary" := DictValue(summary.value)] else Upgrade(m);
            var json := WithSummary(Upgrade(JsonOf(m, level, dicts)));
            && AllIn(copy[key := Listed(listed)], level, more)
            && JsonOf(copy[key := Listed(listed)], level, more) ==
               (if unknown then SummaryCostUnknown(json) else json)[key := ListOf(objects)]
  {
    var copy := if summary.Some? then Upgrade(m)["summary" := DictValue(summary.value)] else Upgrade(m);
    LevelJson(m, level, dicts, more, copy, summary, unknown);
    ListedJson(listed, objects, level, more);
    EntryWritten(copy, level, more, key, Listed(listed));
  }

  lemma {:induction false} ComparisonJson(m: Entries, level: nat, dicts: set<Dict>, summary: Option<Dict>,
                                          vessels: seq<Dict>, now: seq<Dict>, unknown: bool)
    requires Closed(dicts) && AllIn(m, level, dicts) && DictsUnder(Upgrade(m), "vessels") == Some(vessels)
    requires summary.Some? <==> HasSummary(Upgrade(m))
    requires SummaryCopied(m, summary, unknown)
    requires VesselsCopied(vessels, EntriesOf(vessels, |vessels|), EntriesOf(now, |now|), now)
    requires unknown <==> AnyUnreportedEntries(EntriesOf(vessels, |vessels|))
    ensures var copy := if summary.Some? then Upgrade(m)["summary" := DictValue(summary.value)] else Upgrade(m);
            var more := dicts + (Members(now) + Maybe(summary));
            var last := copy["vessels" := Listed(now)];
            && Closed(more) && AllIn(last, level, more)
            && ComparisonOf(JsonOf(m, level, dicts)) == Some((JsonOf(last, level, more), unknown))
  {
    var layer := Members(now) + Maybe(summary);
    var objects := Under(Upgrade(JsonOf(m, level, dicts)), "vessels");
    VesselsJson(m, level, dicts, vessels, now);
    if summary.Some? {
      SummaryJson(m, level, dicts, summary.value, unknown);
    }
    LayerIsClosed(dicts, layer);
    StandForGrows(now, VesselsOf(objects.value), dicts, dicts + layer);
    WithSummaryKeeps(Upgrade(JsonOf(m, level, dicts)), "vessels");
    ListedLevelJson(m, level, dicts, dicts + layer, summary, unknown, "vessels", now, VesselsOf(objects.value));
  }

  /** Without a list of dictionaries as its vessels, a comparison cannot be upgraded. */
  lemma {:induction false} NoVesselsRaise(m: Entries, level: nat, dicts: set<Dict>)
    requires Closed(dicts) && AllIn(m, level, dicts)
    ensures DictsUnder(Upgrade(m), "vessels").Some? <==> ComparisonOf(JsonOf(m, level, dicts)).Some?
  {
    UpgradeOfEntries(m, level, dicts, 3);
    DictsUnderIs(Upgrade(m), level, dicts, "vessels");
    WithSummaryKeeps(Upgrade(JsonOf(m, level, dicts)), "vessels");
  }

  /** The total cost of the copied summary becomes unknown, in place. */
  method ForgetCost(copy: Dict, summary: Option<Dict>)
    requires summary.Some? <==> HasSummary(copy.fields)
    requires summary.Some? ==> copy.fields["summary"].dict == summary.value && summary.value != copy
    modifies if summary.Some? then {summary.value} else {}
    ensures summary.Some? ==> summary.value.fields == old(summary.value.fields)["total_cost" := NullValue]
  {
    if "summary" in copy.fields && copy.fields["summary"].DictValue? {
      var target := copy.fields["summary"].dict;
      target.fields := target.fields["total_cost" := NullValue];
    }
  }

  ghost predicate ComparisonCopied(m: Entries, upgraded: Dict, summary: Option<Dict>, now: seq<Dict>)
    reads upgraded
  {
    var up := Upgrade(m);
    var copy := if summary.Some? then up["summary" := DictValue(summary.value)] else up;
    (summary.Some? <==> HasSummary(up)) && upgraded.fields == copy["vessels" := Listed(now)]
  }

  /** Writes perhaps the unknown cost, and then the vessels, into a copied comparison. */
  method WriteVessels(copy: Dict, summary: Option<Dict>, now: seq<Dict>, unknown: bool)
    requires summary.Some? <==> HasSummary(copy.fields)
    requires summary.Some? ==> copy.fields["summary"].dict == summary.value && summary.value != copy
    modifies {copy} + Maybe(summary)
    ensures copy.fields == old(copy.fields)["vessels" := Listed(now)]
    ensures summary.Some? ==>
              summary.value.fields ==
              if unknown then old(summary.value.fields)["total_cost" := NullValue] else old(summary.value.fields)
  {
    if unknown {
      ForgetCost(copy, summary);
    }
    copy.fields := copy.fields["vessels" := Listed(now)];
  }

  /** Copies the vessels of a copied comparison and writes them, and perhaps the unknown
      cost, into the copies. */
  method FillComparison(copy: Dict, summary: Option<Dict>, vessels: seq<Dict>)
    returns (now: seq<Dict>, unknown: bool)
    requires summary.Some? <==> HasSummary(copy.fields)
    requires summary.Some? ==> copy.fields["summary"].dict == summary.value && summary.value != copy
    requires copy !in vessels && (summary.Some? ==> summary.value !in vessels)
    modifies {copy} + Maybe(summary)
    ensures forall d :: d in now ==> fresh(d)
    ensures VesselsCopied(vessels, EntriesOf(vessels, |vessels|), EntriesOf(now, |now|), now)
    ensures unknown <==> AnyUnreportedEntries(EntriesOf(vessels, |vessels|))
    ensures copy.fields == old(copy.fields)["vessels" := Listed(now)]
    ensures summary.Some? ==>
              summary.value.fields ==
              if unknown then old(summary.value.fields)["total_cost" := NullValue] else old(summary.value.fields)
  {
    now, unknown := UpgradeVessels(vessels);
    ghost var sources, copies := EntriesOf(vessels, |vessels|), EntriesOf(now, |now|);
    assert copy !in now && (summary.Some? ==> summary.value !in now);
    WriteVessels(copy, summary, now, unknown);
    assert EntriesOf(vessels, |vessels|) == sources && EntriesOf(now, |now|) == copies;
  }

  /** The heap work of one comparison: copies of it, of its summary and of its vessels. */
  method CopyComparison(comparison: Dict)
    returns (upgraded: Option<Dict>, summary: Option<Dict>, now: seq<Dict>, unknown: bool)
    ensures var vessels := DictsUnder(Upgrade(comparison.fields), "vessels");
            && (upgraded.Some? <==> vessels.Some?)
            && (upgraded.Some? ==>
              && ComparisonCopied(comparison.fields, upgraded.value, summary, now)
              && VesselsCopied(vessels.value, EntriesOf(vessels.value, |vessels.value|), EntriesOf(now, |now|), now)
              && (unknown <==> AnyUnreportedEntries(EntriesOf(vessels.value, |vessels.value|)))
              && SummaryCopied(comparison.fields, summary, unknown))
    ensures upgraded.Some? ==>
              && fresh(upgraded.value) && upgraded.value.level == comparison.level
              && fresh(Members(now) + Maybe(summary)) && upgraded.value !in Members(now) + Maybe(summary)
  {
    ghost var sources := DictsUnder(Upgrade(comparison.fields), "vessels");
    var copy;
    copy, summary := UpgradeLevel(comparison);
    var vessels := DictsUnder(copy.fields, "vessels");
    assert vessels == sources;
    if vessels.None? {
      return None, summary, [], false;
    }
    now, unknown := FillComparison(copy, summary, vessels.value);
    upgraded := Some(copy);
  }

  method UpgradeComparison(comparison: Dict, ghost dicts: set<Dict>)
    returns (upgraded: Option<Dict>, unknown: bool, ghost more: set<Dict>)
    requires Closed(dicts) && comparison in dicts
    ensures dicts <= more && fresh(more - dicts) && Closed(more)
    ensures upgraded.Some? <==> ComparisonOf(JsonOf(comparison.fields, comparison.level, dicts)).Some?
    ensures upgraded.Some? ==>
              var d := upgraded.value;
              && fresh(d) && d !in more && d.level == comparison.level && AllIn(d.fields, d.level, more)
              && ComparisonOf(JsonOf(comparison.fields, comparison.level, dicts)) ==
                 Some((JsonOf(d.fields, d.level, more), unknown))
  {
    NoVesselsRaise(comparison.fields, comparison.level, dicts);
    var summary, now;
    upgraded, summary, now, unknown := CopyComparison(comparison);
    if upgraded.None? {
      return None, false, dicts;
    }
    more := dicts + (Members(now) + Maybe(summary));
    ComparisonJson(comparison.fields, comparison.level, dicts, summary,
                   DictsUnder(Upgrade(comparison.fields), "vessels").value, now, unknown);
  }

  // ----- The document -----

  /** The first comparisons, upgraded, and whether the cost of one of them is unknown. */
  ghost predicate UpgradedSoFar(objects: seq<Fields>, done: seq<Fields>, unknown: bool) {
    && |done| <= |objects|
    && (forall j :: 0 <= j < |done| ==> ComparisonOf(objects[j]).Some? && done[j] == ComparisonOf(objects[j]).value.0)
    && (unknown <==> exists j :: 0 <= j < |done| && ComparisonOf(objects[j]).Some? && ComparisonOf(objects[j]).value.1)
  }

  lemma {:induction false} UpgradedFurther(objects: seq<Fields>, done: seq<Fields>, unknown: bool, next: Fields,
                                           also: bool)
    requires UpgradedSoFar(objects, done, unknown) && |done| < |objects|
    requires ComparisonOf(objects[|done|]) == Some((next, also))
    ensures UpgradedSoFar(objects, done + [next], unknown || also)
  {
    var longer := done + [next];
    assert forall j :: 0 <= j < |done| ==> longer[j] == done[j];
    if unknown {
      var j :| 0 <= j < |done| && ComparisonOf(objects[j]).Some? && ComparisonOf(objects[j]).value.1;
      assert j < |longer|;
    }
    if also {
      assert |done| < |longer|;
    }
  }

  /** A further copy, with the dictionaries that its entries name. */
  lemma {:induction false} CopyJoins(copies: seq<Dict>, done: seq<Fields>, more: set<Dict>, copy: Dict, its: set<Dict>)
    requires Closed(more) && Closed(its) && StandFor(copies, done, more) && AllIn(copy.fields, copy.level, its)
    ensures Closed(more + its)
    ensures StandFor(copies + [copy], done + [JsonOf(copy.fields, copy.level, its)], more + its)
  {
    UnionIsClosed(more, its);
    StandForGrows(copies, done, more, more + its);
    EntriesGrow(copy.fields, copy.level, its, more + its);
  }

  /** One more comparison is copied and joins the copies made so far. */
  method JoinComparison(comparison: Dict, ghost dicts: set<Dict>, ghost copies: seq<Dict>, ghost done: seq<Fields>,
                        ghost more: set<Dict>)
    returns (copy: Option<Dict>, unknown: bool, ghost json: Fields, ghost grown: set<Dict>)
    requires Closed(dicts) && comparison in dicts && Closed(more) && StandFor(copies, done, more)
    ensures copy.Some? <==> ComparisonOf(JsonOf(comparison.fields, comparison.level, dicts)).Some?
    ensures more <= grown && fresh(grown - (dicts + more)) && Closed(grown)
    ensures copy.Some? ==>
              && fresh(copy.value) && copy.value.level == comparison.level
              && ComparisonOf(JsonOf(comparison.fields, comparison.level, dicts)) == Some((json, unknown))
              && StandFor(copies + [copy.value], done + [json], grown)
  {
    ghost var its;
    copy, unknown, its := UpgradeComparison(comparison, dicts);
    json, grown := map[], more;
    if copy.Some? {
      CopyJoins(copies, done, more, copy.value, its);
      json, grown := JsonOf(copy.value.fields, copy.value.level, its), more + its;
    }
  }

  /** The upgraded copies of all comparisons, or nothing if one of them cannot be upgraded. */
  method UpgradeComparisons(comparisons: seq<Dict>, ghost objects: seq<Fields>, ghost level: nat,
                            ghost dicts: set<Dict>)
    returns (listed: Option<seq<Dict>>, unknown: bool, ghost more: set<Dict>)
    requires Closed(dicts) && StandFor(comparisons, objects, dicts)
    requires forall c :: c in comparisons ==> c in dicts && c.level < level
    ensures dicts <= more && fresh(more - dicts) && Closed(more)
    ensures listed.Some? <==> Upgradable(objects)
    ensures listed.Some? ==>
              && StandFor(listed.value, ComparisonsOf(objects), more)
              && (unknown <==> AnyUnknown(objects))
              && (forall d :: d in listed.value ==> fresh(d) && d.level < level)
  {
    var copies: seq<Dict> := [];
    ghost var done: seq<Fields> := [];
    unknown, more := false, dicts;
    for i := 0 to |comparisons|
      invariant |copies| == |done| == i
      invariant dicts <= more && fresh(more - dicts) && Closed(more) && StandFor(copies, done, more)
      invariant UpgradedSoFar(objects, done, unknown)
      invariant fresh(set d | d in copies) && forall j :: 0 <= j < i ==> copies[j].level < level
    {
      var copy, also;
      ghost var json;
      copy, also, json, more := JoinComparison(comparisons[i], dicts, copies, done, more);
      if copy.None? {
        return None, unknown, more;
      }
      UpgradedFurther(objects, done, unknown, json, also);
      done := done + [json];
      copies := copies + [copy.value];
      unknown := unknown || also;
    }
    assert done == ComparisonsOf(objects);
    listed := Some(copies);
  }

  /** A cost forgotten before or after a list is written. */
  lemma {:induction false} CostAndListCommute(m: Fields, key: string, v: Json)
    requires key != "summary"
    ensures SummaryCostUnknown(m[key := v]) == SummaryCostUnknown(m)[key := v]
  {
  }

  lemma {:induction false} DocumentJson(m: Entries, level: nat, dicts: set<Dict>, more: set<Dict>,
                                        summary: Option<Dict>, listed: seq<Dict>, unknown: bool)
    requires Closed(dicts) && AllIn(m, level, dicts) && Closed(more) && dicts <= more
    requires summary.Some? <==> HasSummary(Upgrade(m))
    requires SummaryCopied(m, summary, unknown)
    requires var objects := Under(Upgrade(JsonOf(m, level, dicts)), "comparisons");
             && objects.Some? && Upgradable(objects.value)
             && StandFor(listed, ComparisonsOf(objects.value), more)
             && (unknown <==> AnyUnknown(objects.value))
    requires forall d :: d in listed ==> d.level < level
    ensures var copy := if summary.Some? then Upgrade(m)["summary" := DictValue(summary.value)] else Upgrade(m);
            var last := if listed == [] then copy else copy["comparisons" := Listed(listed)];
            var all := more + (Members(listed) + Maybe(summary));
            && Closed(all) && AllIn(last, level, all)
            && Normalized(JsonOf(m, level, dicts)) == Some(JsonOf(last, level, all))
  {
    var layer := Members(listed) + Maybe(summary);
    var json := WithSummary(Upgrade(JsonOf(m, level, dicts)));
    var objects := Under(Upgrade(JsonOf(m, level, dicts)), "comparisons").value;
    WithSummaryKeeps(Upgrade(JsonOf(m, level, dicts)), "comparisons");
    if summary.Some? {
      SummaryJson(m, level, dicts, summary.value, unknown);
      EntriesGrow(summary.value.fields, summary.value.level, dicts, more);
    }
    LayerIsClosed(more, layer);
    StandForGrows(listed, ComparisonsOf(objects), more, more + layer);
    if listed == [] {
      var copy := if summary.Some? then Upgrade(m)["summary" := DictValue(summary.value)] else Upgrade(m);
      LevelJson(m, level, dicts, more + layer, copy, summary, unknown);
    } else {
      ListedLevelJson(m, level, dicts, more + layer, summary, unknown, "comparisons", listed, ComparisonsOf(objects));
      CostAndListCommute(json, "comparisons", ListOf(ComparisonsOf(objects)));
    }
  }

  /** A document whose comparisons are not a list of dictionaries cannot be upgraded. */
  lemma {:induction false} NoComparisonsRaise(m: Entries, level: nat, dicts: set<Dict>)
    requires Closed(dicts) && AllIn(m, level, dicts)
    ensures var comparisons := DictsUnder(Upgrade(m), "comparisons");
            var objects := Under(Upgrade(JsonOf(m, level, dicts)), "comparisons");
            && (comparisons.Some? <==> objects.Some?)
            && (comparisons.Some? ==>
              && StandFor(comparisons.value, objects.value, dicts)
              && (forall c :: c in comparisons.value ==> c in dicts && c.level < level))
            && (Normalized(JsonOf(m, level, dicts)).Some? <==> objects.Some? && Upgradable(objects.value))
  {
    UpgradeOfEntries(m, level, dicts, 3);
    DictsUnderIs(Upgrade(m), level, dicts, "comparisons");
    WithSummaryKeeps(Upgrade(JsonOf(m, level, dicts)), "comparisons");
  }

  /** Writes the upgraded comparisons, and perhaps the unknown cost, into the copied document. */
  method FillDocument(copy: Dict, summary: Option<Dict>, listed: seq<Dict>, unknown: bool)
    requires summary.Some? <==> HasSummary(copy.fields)
    requires summary.Some? ==> copy.fields["summary"].dict == summary.value && summary.value != copy
    modifies {copy} + Maybe(summary)
    ensures copy.fields == if listed == [] then old(copy.fields) else old(copy.fields)["comparisons" := Listed(listed)]
    ensures summary.Some? ==>
              summary.value.fields ==
              if unknown then old(summary.value.fields)["total_cost" := NullValue] else old(summary.value.fields)
  {
    if listed != [] {
      copy.fields := copy.fields["comparisons" := Listed(listed)];
    }
    if unknown {
      ForgetCost(copy, summary);
    }
  }

  /** The copied document, and the dictionaries listed as its comparisons. */
  method OpenDocument(document: Dict, ghost dicts: set<Dict>)
    returns (copy: Dict, summary: Option<Dict>, comparisons: Option<seq<Dict>>, ghost objects: seq<Fields>)
    requires Closed(dicts) && document in dicts
    ensures fresh(copy) && copy.level == document.level
    ensures summary.Some? ==> fresh(summary.value) && summary.value != copy
    ensures LevelCopied(document.fields, copy, summary) && SummaryCopied(document.fields, summary, false)
    ensures var json := JsonOf(document.fields, document.level, dicts);
            && (comparisons.None? ==> Normalized(json).None?)
            && (comparisons.Some? ==>
              && Under(Upgrade(json), "comparisons") == Some(objects) && StandFor(comparisons.value, objects, dicts)
              && (forall c :: c in comparisons.value ==> c in dicts && c.level < document.level)
              && (Normalized(json).Some? <==> Upgradable(objects)))
  {
    NoComparisonsRaise(document.fields, document.level, dicts);
    ghost var sources := DictsUnder(Upgrade(document.fields), "comparisons");
    ghost var found := Under(Upgrade(JsonOf(document.fields, document.level, dicts)), "comparisons");
    objects := if found.Some? then found.value else [];
    copy, summary := UpgradeLevel(document);
    comparisons := DictsUnder(copy.fields, "comparisons");
    assert comparisons == sources;
  }

  /** Everything is copied and upgraded; the copied document is still to be completed. */
  ghost predicate Prepared(document: Dict, copy: Dict, summary: Option<Dict>, listed: seq<Dict>, unknown: bool,
                           objects: seq<Fields>, dicts: set<Dict>, more: set<Dict>)
    reads dicts, more, copy, listed, Maybe(summary)
    reads document, if HasSummary(Upgrade(document.fields)) then {Upgrade(document.fields)["summary"].dict} else {}
  {
    && Closed(dicts) && document in dicts && Closed(more) && dicts <= more
    && LevelCopied(document.fields, copy, summary) && SummaryCopied(document.fields, summary, false)
    && (HasSummary(Upgrade(document.fields)) ==> Upgrade(document.fields)["summary"].dict in dicts)
    && copy !in more && copy !in listed
    && (summary.Some? ==> summary.value !in more && summary.value !in listed && summary.value != copy)
    && Under(Upgrade(JsonOf(document.fields, document.level, dicts)), "comparisons") == Some(objects)
    && Upgradable(objects) && StandFor(listed, ComparisonsOf(objects), more)
    && (unknown <==> AnyUnknown(objects))
    && copy.level == document.level && forall d :: d in listed ==> d.level < document.level
  }

  lemma {:induction false} SummaryIsOld(document: Dict, dicts: set<Dict>)
    requires Closed(dicts) && document in dicts && HasSummary(Upgrade(document.fields))
    ensures Upgrade(document.fields)["summary"].dict in dicts
  {
    UpgradeOfEntries(document.fields, document.level, dicts, 3);
  }

  method PrepareDocument(document: Dict, ghost dicts: set<Dict>)
    returns (copy: Dict, summary: Option<Dict>, listed: Option<seq<Dict>>, unknown: bool, ghost objects: seq<Fields>,
             ghost more: set<Dict>)
    requires Closed(dicts) && document in dicts
    ensures fresh(copy) && fresh(Maybe(summary)) && fresh(more - dicts)
    ensures listed.None? ==> Normalized(JsonOf(document.fields, document.level, dicts)).None?
    ensures listed.Some? ==>
              && Prepared(document, copy, summary, listed.value, unknown, objects, dicts, more)
              && forall d :: d in listed.value ==> fresh(d)
  {
    if HasSummary(Upgrade(document.fields)) {
      SummaryIsOld(document, dicts);
    }
    var comparisons;
    copy, summary, comparisons, objects := OpenDocument(document, dicts);
    listed, unknown, more := None, false, dicts;
    if comparisons.Some? {
      listed, unknown, more := UpgradeComparisons(comparisons.value, objects, document.level, dicts);
    }
  }

  /** The copied document and its summary are completed; nothing else is written to. */
  method FinishDocument(document: Dict, copy: Dict, summary: Option<Dict>, listed: seq<Dict>, unknown: bool,
                        ghost objects: seq<Fields>, ghost dicts: set<Dict>, ghost more: set<Dict>)
    returns (ghost all: set<Dict>)
    requires Prepared(document, copy, summary, listed, unknown, objects, dicts, more)
    modifies {copy} + Maybe(summary)
    ensures all == more + (Members(listed) + Maybe(summary)) && Closed(all) && AllIn(copy.fields, copy.level, all)
    ensures Normalized(old(JsonOf(document.fields, document.level, dicts))) ==
            Some(JsonOf(copy.fields, copy.level, all))
  {
    FillDocument(copy, summary, listed, unknown);
    assert SummaryCopied(document.fields, summary, unknown);
    assert StandFor(listed, ComparisonsOf(objects), more);
    DocumentJson(document.fields, document.level, dicts, more, summary, listed, unknown);
    all := more + (Members(listed) + Maybe(summary));
  }

  /** The result is a new dictionary that stands for the normalized document; whether it
      raises or not, no dictionary that existed before is written to. */
  method NormalizeTaskAttemptScorecard(document: Dict, ghost dicts: set<Dict>)
    returns (normalized: Option<Dict>, ghost all: set<Dict>)
    requires Closed(dicts) && document in dicts
    ensures unchanged(dicts)
    ensures normalized.Some? <==> Normalized(JsonOf(document.fields, document.level, dicts)).Some?
    ensures normalized.Some? ==>
              var d := normalized.value;
              && fresh(d) && dicts <= all && fresh(all - dicts) && Closed(all) && AllIn(d.fields, d.level, all)
              && Normalized(JsonOf(document.fields, document.level, dicts)) == Some(JsonOf(d.fields, d.level, all))
  {
    var copy, summary, listed, unknown;
    ghost var objects, more;
    copy, summary, listed, unknown, objects, more := PrepareDocument(document, dicts);
    if listed.None? {
      return None, dicts;
    }
    all := FinishDocument(document, copy, summary, listed.value, unknown, objects, dicts, more);
    normalized := Some(copy);
  }
}
