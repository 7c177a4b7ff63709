/** Seeded random selection of benchmark instances (courses/selection.py). */
module Selection {
  import opened Prelude
  import opened Text
  import opened Framing
  import opened Sorting

  const MAX_SELECTION_SEED := 0x7FFF_FFFF_FFFF_FFFF

  // ---------- Orders ----------

  /** Byte strings compare lexicographically. */
  predicate LexLess(a: seq<Byte>, b: seq<Byte>) {
    b != [] && (a == [] || a[0] < b[0] || (a[0] == b[0] && LexLess(a[1..], b[1..])))
  }

  lemma {:induction false} LexIrreflexive(a: seq<Byte>)
    ensures !LexLess(a, a)
  {
    if a != [] {
      LexIrreflexive(a[1..]);
    }
  }

  lemma {:induction false} LexTotal(a: seq<Byte>, b: seq<Byte>)
    requires a != b
    ensures LexLess(a, b) || LexLess(b, a)
  {
    if a != [] && b != [] && a[0] == b[0] {
      assert a == [a[0]] + a[1..] && b == [b[0]] + b[1..];
      LexTotal(a[1..], b[1..]);
    }
  }

  lemma {:induction false} LexTransitive(a: seq<Byte>, b: seq<Byte>, c: seq<Byte>)
    requires LexLess(a, b) && LexLess(b, c)
    ensures LexLess(a, c)
  {
    if a != [] && a[0] == b[0] == c[0] {
      LexTransitive(a[1..], b[1..], c[1..]);
    }
  }

  /** `a` is a proper prefix of `b`, or has the smaller byte where they first differ. */
  ghost predicate ComesFirst(a: seq<Byte>, b: seq<Byte>) {
    a < b || exists k :: 0 <= k < |a| && k < |b| && a[..k] == b[..k] && a[k] < b[k]
  }

  lemma {:induction false} LexLessIff(a: seq<Byte>, b: seq<Byte>)
    ensures LexLess(a, b) <==> ComesFirst(a, b)
  {
    if a != [] && b != [] && a[0] == b[0] {
      LexLessIff(a[1..], b[1..]);
      if k :| 0 <= k < |a[1..]| && k < |b[1..]| && a[1..][..k] == b[1..][..k] && a[1..][k] < b[1..][k] {
        assert a[..k + 1] == [a[0]] + a[1..][..k] && b[..k + 1] == [b[0]] + b[1..][..k];
        assert a[..k + 1] == b[..k + 1] && a[k + 1] < b[k + 1];
      }
      if k :| 0 <= k < |a| && k < |b| && a[..k] == b[..k] && a[k] < b[k] {
        assert k > 0 && a[1..][..k - 1] == a[..k][1..] && b[1..][..k - 1] == b[..k][1..];
        assert a[1..][k - 1] < b[1..][k - 1];
      }
      if a < b {
        assert a[1..] == b[..|a|][1..] == b[1..][..|a| - 1];
      }
      if a[1..] < b[1..] {
        assert a == [a[0]] + b[1..][..|a| - 1] == b[..|a|];
      }
    } else if a != [] && b != [] && a[0] < b[0] {
      assert a[..0] == b[..0];
    }
  }

  /** The hash is any function of its input. */
  type Hash = seq<Byte> -> seq<Byte>

  /** What ids are sorted by: an optional rank, then the UTF-8 encoding. */
  datatype Order = ByRank(hash: Hash, seed: nat) | ByText

  function RankOf(order: Order, id: string): seq<Byte> {
    if order.ByRank? then order.hash(RankInput(order.seed, id)) else []
  }

  /** Pairs compare by their first component, then by their second. */
  predicate PairLess(a: seq<Byte>, u: seq<Byte>, b: seq<Byte>, v: seq<Byte>) {
    LexLess(a, b) || (a == b && LexLess(u, v))
  }

  lemma {:induction false} PairTransitive(a: seq<Byte>, u: seq<Byte>, b: seq<Byte>, v: seq<Byte>,
                                          c: seq<Byte>, w: seq<Byte>)
    requires PairLess(a, u, b, v) && PairLess(b, v, c, w)
    ensures PairLess(a, u, c, w)
  {
    if LexLess(a, b) && LexLess(b, c) {
      LexTransitive(a, b, c);
    } else if a == b == c {
      LexTransitive(u, v, w);
    }
  }

  predicate Before(order: Order, x: string, y: string) {
    PairLess(RankOf(order, x), Utf8(x), RankOf(order, y), Utf8(y))
  }

  lemma {:induction false} PairTotal(a: seq<Byte>, u: seq<Byte>, b: seq<Byte>, v: seq<Byte>)
    requires u != v
    ensures PairLess(a, u, b, v) || PairLess(b, v, a, u)
  {
    if a != b {
      LexTotal(a, b);
    } else {
      LexTotal(u, v);
    }
  }

  /** Equal ranks, even from a colliding hash, are separated by the text. */
  lemma {:induction false} BeforeTotal(order: Order, x: string, y: string)
    requires x != y
    ensures Before(order, x, y) || Before(order, y, x)
  {
    if Utf8(x) == Utf8(y) {
      Utf8Injective(x, y);
    }
    PairTotal(RankOf(order, x), Utf8(x), RankOf(order, y), Utf8(y));
  }

  lemma {:induction false} BeforeTransitive(order: Order, x: string, y: string, z: string)
    requires Before(order, x, y) && Before(order, y, z)
    ensures Before(order, x, z)
  {
    PairTransitive(RankOf(order, x), Utf8(x), RankOf(order, y), Utf8(y), RankOf(order, z), Utf8(z));
  }

  lemma {:induction false} BeforeIrreflexive(order: Order, x: string)
    ensures !Before(order, x, x)
  {
    LexIrreflexive(RankOf(order, x));
    LexIrreflexive(Utf8(x));
  }

  lemma {:induction false} PairLessIff(a: seq<Byte>, u: seq<Byte>, b: seq<Byte>, v: seq<Byte>)
    ensures PairLess(a, u, b, v) <==> ComesFirst(a, b) || (a == b && ComesFirst(u, v))
  {
    LexLessIff(a, b);
    LexLessIff(u, v);
  }

  /** One id is ranked before another exactly when the hash of its seed and text comes
      first, or the hashes are the same and its text does. */
  lemma {:induction false} RankedBeforeIff(hash: Hash, seed: nat, x: string, y: string, a: seq<Byte>, b: seq<Byte>)
    requires a == hash(RankInput(seed, x)) && b == hash(RankInput(seed, y))
    ensures LessBy(ByRank(hash, seed))(x, y) <==> ComesFirst(a, b) || (a == b && ComesFirst(Utf8(x), Utf8(y)))
  {
    PairLessIff(a, Utf8(x), b, Utf8(y));
  }

  /** Texts are sorted by their bytes. */
  lemma {:induction false} TextBeforeIff(x: string, y: string)
    ensures LessBy(ByText)(x, y) <==> ComesFirst(Utf8(x), Utf8(y))
  {
    var none: seq<Byte> := [];
    PairLessIff(none, Utf8(x), none, Utf8(y));
    LexIrreflexive(none);
    LexLessIff(none, none);
  }

  function LessBy(order: Order): Less<string> {
    (x, y) => Before(order, x, y)
  }

  lemma {:induction false} OrderIsTotal(order: Order)
    ensures StrictTotalOrder(LessBy(order))
  {
    var less := LessBy(order);
    forall x
      ensures !less(x, x)
    {
      BeforeIrreflexive(order, x);
    }
    forall x, y | x != y
      ensures less(x, y) || less(y, x)
    {
      BeforeTotal(order, x, y);
    }
    forall x, y, z | less(x, y) && less(y, z)
      ensures less(x, z)
    {
      BeforeTransitive(order, x, y, z);
    }
  }

  // ---------- Selection ----------

  /** Accepts exactly non-empty lists of distinct non-empty ids. */
  method ValidatedPopulation(ids: seq<string>) returns (population: Result<seq<string>>)
    ensures population.Ok? <==> ids != [] && "" !in ids && Distinct(ids)
    ensures population.Ok? ==> population.value == ids
  {
    if ids == [] {
      return Err("random selection requires at least one instance ID");
    }
    var seen: set<string> := {};
    for index := 0 to |ids|
      invariant forall id :: id in seen <==> exists i :: 0 <= i < index && ids[i] == id
      invariant forall i :: 0 <= i < index ==> ids[i] != ""
      invariant forall i, j :: 0 <= i < j < index ==> ids[i] != ids[j]
    {
      if ids[index] == "" {
        return Err("random selection instance id must be a non-empty string");
      }
      if ids[index] in seen {
        return Err("random selection instance id is duplicated");
      }
      seen := seen + {ids[index]};
    }
    population := Ok(ids);
  }

  datatype Provenance = Provenance(seed: nat, requested: nat, count: nat, digest: seq<Byte>)

  datatype Selected = Selected(ids: seq<string>, provenance: Provenance)

  function DigestInput(population: seq<string>): seq<Byte> {
    PopulationInput(Sorted(LessBy(ByText), population, |population|))
  }

  function DigestOf(hash: Hash, population: seq<string>): seq<Byte> {
    hash(DigestInput(population))
  }

  method SelectRandomInstances(hash: Hash, ids: seq<string>, maxInstances: int, seed: int)
    returns (selected: Result<Selected>)
    ensures selected.Ok? <==>
            && ids != [] && "" !in ids && (forall i, j :: 0 <= i < j < |ids| ==> ids[i] != ids[j])
            && 1 <= maxInstances <= |ids| && 0 <= seed <= 0x7FFF_FFFF_FFFF_FFFF
    ensures selected.Ok? ==>
              && HoldsLeast(LessBy(ByRank(hash, seed)), ids, selected.value.ids, maxInstances)
              && selected.value.provenance == Provenance(seed, maxInstances, |ids|, DigestOf(hash, ids))
  {
    var population := ValidatedPopulation(ids);
    if population.Err? {
      return Err(population.message);
    }
    if maxInstances < 1 {
      return Err("random selection max_instances must be at least 1");
    }
    if maxInstances > |ids| {
      return Err("random selection max_instances must not exceed the population size");
    }
    if seed < 0 || seed > MAX_SELECTION_SEED {
      return Err("random selection seed out of range");
    }
    var less := LessBy(ByRank(hash, seed));
    var sorted := Sorted(less, ids, |ids|);
    OrderIsTotal(ByRank(hash, seed));
    SortedIsIncreasing(less, ids, |ids|);
    assert ids[..|ids|] == ids;
    TakeHoldsLeast(less, ids, sorted, maxInstances);
    selected := Ok(Selected(sorted[..maxInstances], Provenance(seed, maxInstances, |ids|, DigestOf(hash, ids))));
  }

  /** Two populations with the same ids, in whatever order, give the same selection
      and the same digest. */
  lemma {:induction false} SelectionIgnoresOrder(hash: Hash, seed: nat, a: seq<string>, b: seq<string>,
                                                 x: seq<string>, y: seq<string>, k: nat)
    requires Distinct(a) && Distinct(b) && SameElements(a, b)
    requires HoldsLeast(LessBy(ByRank(hash, seed)), a, x, k) && HoldsLeast(LessBy(ByRank(hash, seed)), b, y, k)
    ensures x == y && |a| == |b| && DigestOf(hash, a) == DigestOf(hash, b)
  {
    OrderIsTotal(ByRank(hash, seed));
    OrderIsTotal(ByText);
    LeastIsUnique(LessBy(ByRank(hash, seed)), a, x, y, k);
    SortedIgnoresOrder(LessBy(ByText), a, b);
  }

  /** The selection of `k` instances is a prefix of the selection of `k + 1`. */
  lemma {:induction false} SelectionGrows(hash: Hash, seed: nat, population: seq<string>, x: seq<string>,
                                          y: seq<string>, k: nat)
    requires HoldsLeast(LessBy(ByRank(hash, seed)), population, x, k)
    requires HoldsLeast(LessBy(ByRank(hash, seed)), population, y, k + 1)
    ensures y[..k] == x
  {
    OrderIsTotal(ByRank(hash, seed));
    LeastGrows(LessBy(ByRank(hash, seed)), population, x, y, k);
  }

  predicate DigestFits(population: seq<string>) {
    AllFit([POPULATION_DOMAIN, Decimal(|population|)] + Sorted(LessBy(ByText), population, |population|))
  }

  /** Unless the hash collides on these two very inputs, equal digests mean equal
      sets of ids. */
  lemma {:induction false} DigestIdentifiesPopulation(hash: Hash, a: seq<string>, b: seq<string>)
    requires Distinct(a) && Distinct(b) && DigestFits(a) && DigestFits(b)
    requires hash(DigestInput(a)) == hash(DigestInput(b)) ==> DigestInput(a) == DigestInput(b)
    ensures DigestOf(hash, a) == DigestOf(hash, b) <==> SameElements(a, b)
  {
    OrderIsTotal(ByText);
    SortedEqualIff(LessBy(ByText), a, b);
    if DigestInput(a) == DigestInput(b) {
      PopulationsAgree(a, b);
    }
  }

  lemma {:induction false} PopulationsAgree(a: seq<string>, b: seq<string>)
    requires Distinct(a) && Distinct(b) && DigestFits(a) && DigestFits(b) && DigestInput(a) == DigestInput(b)
    ensures Sorted(LessBy(ByText), a, |a|) == Sorted(LessBy(ByText), b, |b|)
  {
    OrderIsTotal(ByText);
    SortedIsIncreasing(LessBy(ByText), a, |a|);
    SortedIsIncreasing(LessBy(ByText), b, |b|);
    PopulationInputInjective(Sorted(LessBy(ByText), a, |a|), Sorted(LessBy(ByText), b, |b|));
  }
}
