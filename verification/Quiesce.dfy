/** Reaping what a session left behind (quiesce.py and production_final_cleanup of
    controlled_omp.py), against a process table that may change between any two
    looks at it. */
module Quiesce {
  import opened Prelude

  const ZOMBIE_STATE := "Z"
  const ROUNDS := 6

  /** A process identity: a pid and the start time that tells its owners apart. */
  type Identity = (int, int)

  datatype ProcEntry = ProcEntry(pid: int, starttime: int, state: string, cmdline: string)

  /** A scan lists the process table and the identities of the scanner itself. */
  datatype Scan = Scanned(entries: seq<ProcEntry>, own: set<Identity>) | ScanFailed

  /** A process as the kill script finds it in the table, under its pid. */
  datatype Seen = Seen(starttime: int, state: string, group: int)

  type Table = map<int, Seen>

  /** What the container answers: scans by round; and by round and position, the
      table that the kill script finds and whether running it raises. */
  datatype Container = Container(
    scan: nat -> Scan,
    table: (nat, nat) -> Table,
    execFails: (nat, nat) -> bool)

  function IdentityOf(entry: ProcEntry): Identity {
    (entry.pid, entry.starttime)
  }

  // ---------- Baseline and selection ----------

  datatype Baseline = Baseline(identities: set<Identity>, cmdlines: set<string>)

  method BaselineFromEntries(entries: seq<ProcEntry>) returns (baseline: Baseline)
    ensures forall id :: id in baseline.identities <==> exists i :: 0 <= i < |entries| && IdentityOf(entries[i]) == id
    ensures forall line :: line in baseline.cmdlines <==>
                             line != "" && exists i :: 0 <= i < |entries| && entries[i].cmdline == line
  {
    var identities: set<Identity> := {};
    var cmdlines: set<string> := {};
    for i := 0 to |entries|
      invariant forall id :: id in identities <==> exists j :: 0 <= j < i && IdentityOf(entries[j]) == id
      invariant forall line :: line in cmdlines <==> line != "" && exists j :: 0 <= j < i && entries[j].cmdline == line
    {
      identities := identities + {IdentityOf(entries[i])};
      if entries[i].cmdline != "" {
        cmdlines := cmdlines + {entries[i].cmdline};
      }
    }
    baseline := Baseline(identities, cmdlines);
  }

  /** Processes the reaper must leave alone, scanners aside. */
  predicate Spared(entry: ProcEntry, baseline: set<Identity>, protect: set<int>) {
    entry.pid == 1 || entry.pid in protect || entry.state == ZOMBIE_STATE || IdentityOf(entry) in baseline
  }

  /** The identities to reap among the first `n` entries, in table order. */
  function Selected(entries: seq<ProcEntry>, baseline: set<Identity>, protect: set<int>, scanners: set<Identity>,
                    n: nat): seq<Identity>
    requires n <= |entries|
  {
    if n == 0 then []
    else
      Selected(entries, baseline, protect, scanners, n - 1) +
      (if Spared(entries[n - 1], baseline, protect) || IdentityOf(entries[n - 1]) in scanners then []
       else [IdentityOf(entries[n - 1])])
  }

  method ReapFromEntries(entries: seq<ProcEntry>, baseline: set<Identity>, protect: set<int>)
    returns (reap: seq<Identity>)
    ensures reap == Selected(entries, baseline, protect, {}, |entries|)
  {
    reap := [];
    for i := 0 to |entries|
      invariant reap == Selected(entries, baseline, protect, {}, i)
    {
      var entry := entries[i];
      if entry.pid == 1 || entry.pid in protect {
        continue;
      }
      if entry.state == ZOMBIE_STATE {
        continue;
      }
      if IdentityOf(entry) in baseline {
        continue;
      }
      reap := reap + [IdentityOf(entry)];
    }
  }

  function Without(ids: seq<Identity>, scanners: set<Identity>, n: nat): seq<Identity>
    requires n <= |ids|
  {
    if n == 0 then []
    else Without(ids, scanners, n - 1) + (if ids[n - 1] in scanners then [] else [ids[n - 1]])
  }

  lemma {:induction false} WithoutOfAppend(a: seq<Identity>, id: Identity, scanners: set<Identity>)
    ensures Without(a + [id], scanners, |a| + 1) == Without(a, scanners, |a|) + (if id in scanners then [] else [id])
  {
    WithoutOfPrefix(a, a + [id], scanners, |a|);
  }

  lemma {:induction false} WithoutOfPrefix(a: seq<Identity>, b: seq<Identity>, scanners: set<Identity>, n: nat)
    requires n <= |a| <= |b| && b[..|a|] == a
    ensures Without(b, scanners, n) == Without(a, scanners, n)
  {
    if n > 0 {
      WithoutOfPrefix(a, b, scanners, n - 1);
      assert b[n - 1] == a[n - 1];
    }
  }

  /** Dropping the scanners afterwards is the same as never selecting them. */
  lemma {:induction false} DroppingScanners(entries: seq<ProcEntry>, baseline: set<Identity>, protect: set<int>,
                                            scanners: set<Identity>, n: nat)
    requires n <= |entries|
    ensures var reap := Selected(entries, baseline, protect, {}, n);
            Without(reap, scanners, |reap|) == Selected(entries, baseline, protect, scanners, n)
  {
    if n > 0 {
      var before, id := Selected(entries, baseline, protect, {}, n - 1), IdentityOf(entries[n - 1]);
      DroppingScanners(entries, baseline, protect, scanners, n - 1);
      WithoutOfAppend(before, id, scanners);
      if Spared(entries[n - 1], baseline, protect) {
        assert Selected(entries, baseline, protect, {}, n) == before;
      }
    }
  }

  /** Exactly the live, non-init processes that are neither protected nor known are
      selected: a recycled pid is not known by its number alone. */
  lemma {:induction false} SelectionIsExact(entries: seq<ProcEntry>, baseline: set<Identity>, protect: set<int>,
                                            scanners: set<Identity>, n: nat, id: Identity)
    requires n <= |entries|
    ensures id in Selected(entries, baseline, protect, scanners, n) <==>
            id.0 != 1 && id.0 !in protect && id !in baseline && id !in scanners &&
            exists i :: 0 <= i < n && entries[i].pid == id.0 && entries[i].starttime == id.1 && entries[i].state != "Z"
  {
    if n > 0 {
      SelectionIsExact(entries, baseline, protect, scanners, n - 1, id);
    }
  }

  // ---------- The cleanup loop ----------

  /** Scanner identities accumulate: those of the baseline scan and of `n` rounds. */
  function ScannersAfter(container: Container, first: set<Identity>, n: nat): set<Identity> {
    if n == 0 then first
    else
      ScannersAfter(container, first, n - 1) +
      (if container.scan(n - 1).Scanned? then container.scan(n - 1).own else {})
  }

  lemma {:induction false} ScannersIff(container: Container, first: set<Identity>, n: nat, id: Identity)
    ensures id in ScannersAfter(container, first, n) <==>
            || id in first
            || exists r :: 0 <= r < n && container.scan(r).Scanned? && id in container.scan(r).own
  {
    if n > 0 {
      ScannersIff(container, first, n - 1, id);
    }
  }

  /** What round `q` selects. */
  function Chosen(container: Container, baseline: set<Identity>, protect: set<int>, first: set<Identity>, q: nat)
    : seq<Identity>
  {
    if container.scan(q).ScanFailed? then []
    else
      var entries := container.scan(q).entries;
      Selected(entries, baseline, protect, ScannersAfter(container, first, q + 1), |entries|)
  }

  /** How many of the first `n` scripts of round `q` run before one cannot be run. */
  function Runs(container: Container, q: nat, n: nat): (runs: nat)
    ensures runs <= n
  {
    if n == 0 then 0
    else if Runs(container, q, n - 1) == n - 1 && !container.execFails(q, n - 1) then n
    else Runs(container, q, n - 1)
  }

  lemma {:induction false} RunsIff(container: Container, q: nat, n: nat)
    ensures Runs(container, q, n) == n <==> forall j :: 0 <= j < n ==> !container.execFails(q, j)
    ensures Runs(container, q, n) < n ==> container.execFails(q, Runs(container, q, n))
  {
    if n > 0 {
      RunsIff(container, q, n - 1);
    }
  }

  /** Those of the first `n` kill scripts of a round that are run, in table order. */
  function Scripts(container: Container, reap: seq<Identity>, q: nat, n: nat): seq<Identity>
    requires n <= |reap|
  {
    if n == 0 then []
    else Scripts(container, reap, q, n - 1) + (if Runs(container, q, n) == n then [reap[n - 1]] else [])
  }

  function Asked(container: Container, baseline: set<Identity>, protect: set<int>, first: set<Identity>, q: nat)
    : seq<Identity>
  {
    var reap := Chosen(container, baseline, protect, first, q);
    Scripts(container, reap, q, |reap|)
  }

  /** The kill script looks again before it signals. */
  predicate StillThere(table: Table, id: Identity) {
    id.0 in table && table[id.0].starttime == id.1 && table[id.0].state != ZOMBIE_STATE
  }

  predicate InTable(table: Table, id: Identity) {
    id.0 in table && table[id.0].starttime == id.1
  }

  function Group(table: Table, number: int): set<Identity> {
    set pid | pid in table && table[pid].group == number :: (pid, table[pid].starttime)
  }

  /** Whom the script strikes: the process group with the target's number, and only if
      there is none the target alone. */
  function StruckBy(table: Table, target: Identity): set<Identity> {
    if Group(table, target.0) != {} then Group(table, target.0) else {target}
  }

  /** Whom the first `n` scripts of a round strike. */
  function Strikes(container: Container, reap: seq<Identity>, q: nat, n: nat): set<Identity>
    requires n <= |reap|
  {
    if n == 0 then {}
    else
      Strikes(container, reap, q, n - 1) +
      (if Runs(container, q, n) == n && StillThere(container.table(q, n - 1), reap[n - 1])
       then StruckBy(container.table(q, n - 1), reap[n - 1]) else {})
  }

  /** Which of them go on to signal. */
  function Hits(container: Container, reap: seq<Identity>, q: nat, n: nat): seq<Identity>
    requires n <= |reap|
  {
    if n == 0 then []
    else
      Hits(container, reap, q, n - 1) +
      (if Runs(container, q, n) == n && StillThere(container.table(q, n - 1), reap[n - 1]) then [reap[n - 1]] else [])
  }

  function RoundStrikes(container: Container, baseline: set<Identity>, protect: set<int>, first: set<Identity>, q: nat)
    : set<Identity>
  {
    var reap := Chosen(container, baseline, protect, first, q);
    Strikes(container, reap, q, |reap|)
  }

  function RoundHits(container: Container, baseline: set<Identity>, protect: set<int>, first: set<Identity>, q: nat)
    : seq<Identity>
  {
    var reap := Chosen(container, baseline, protect, first, q);
    Hits(container, reap, q, |reap|)
  }

  lemma {:induction false} RunsStop(container: Container, reap: seq<Identity>, q: nat, k: nat, n: nat)
    requires k < n <= |reap| && Runs(container, q, k) == k && container.execFails(q, k)
    ensures Runs(container, q, n) == k
    ensures Scripts(container, reap, q, n) == Scripts(container, reap, q, k)
    ensures Hits(container, reap, q, n) == Hits(container, reap, q, k)
    ensures Strikes(container, reap, q, n) == Strikes(container, reap, q, k)
  {
    if k + 1 < n {
      RunsStop(container, reap, q, k, n - 1);
    }
  }

  predicate RoundRaises(container: Container, baseline: set<Identity>, protect: set<int>, first: set<Identity>,
                        q: nat) {
    var reap := Chosen(container, baseline, protect, first, q);
    container.scan(q).ScanFailed? || Runs(container, q, |reap|) < |reap|
  }

  /** A round that found something, ran every kill script, and goes round again. */
  predicate RoundWorks(container: Container, baseline: set<Identity>, protect: set<int>, first: set<Identity>, q: nat) {
    !RoundRaises(container, baseline, protect, first, q) && Chosen(container, baseline, protect, first, q) != []
  }

  lemma {:induction false} HitIsStillThere(container: Container, reap: seq<Identity>, q: nat, n: nat, i: nat)
    returns (k: nat)
    requires n <= |reap| && i < |Hits(container, reap, q, n)|
    ensures k < n && reap[k] == Hits(container, reap, q, n)[i] && StillThere(container.table(q, k), reap[k])
    ensures Runs(container, q, k + 1) == k + 1
  {
    if i < |Hits(container, reap, q, n - 1)| {
      k := HitIsStillThere(container, reap, q, n - 1, i);
    } else {
      k := n - 1;
    }
  }

  datatype Outcome = Quiet | Worked | Broke

  /** What a round did: the targets of the kill scripts that ran, the targets of those
      that went on to signal, and everything that they struck. */
  datatype Round = Round(outcome: Outcome, asked: seq<Identity>, killed: seq<Identity>, struck: set<Identity>)

  predicate RoundIs(container: Container, baseline: set<Identity>, protect: set<int>, first: set<Identity>, q: nat,
                    round: Round) {
    && (round.outcome.Broke? <==> RoundRaises(container, baseline, protect, first, q))
    && (round.outcome.Worked? <==> RoundWorks(container, baseline, protect, first, q))
    && round.asked == Asked(container, baseline, protect, first, q)
    && round.killed == RoundHits(container, baseline, protect, first, q)
    && round.struck == RoundStrikes(container, baseline, protect, first, q)
  }

  predicate RoundsAre(container: Container, baseline: set<Identity>, protect: set<int>, first: set<Identity>,
                      rounds: seq<Round>) {
    forall q {:trigger rounds[q]} :: 0 <= q < |rounds| ==>
      RoundIs(container, baseline, protect, first, q, rounds[q])
  }

  lemma {:induction false} RoundsGrow(container: Container, baseline: set<Identity>, protect: set<int>,
                                      first: set<Identity>, rounds: seq<Round>, round: Round)
    requires RoundsAre(container, baseline, protect, first, rounds)
    requires RoundIs(container, baseline, protect, first, |rounds|, round)
    ensures RoundsAre(container, baseline, protect, first, rounds + [round])
  {
    var longer := rounds + [round];
    forall q | 0 <= q < |longer|
      ensures RoundIs(container, baseline, protect, first, q, longer[q])
    {
      assert q < |rounds| ==> longer[q] == rounds[q];
    }
  }

  /** Runs the kill scripts of round `q` until one cannot be run. */
  method Kill(container: Container, reap: seq<Identity>, q: nat)
    returns (raised: bool, asked: seq<Identity>, killed: seq<Identity>, struck: set<Identity>)
    ensures raised <==> Runs(container, q, |reap|) < |reap|
    ensures asked == Scripts(container, reap, q, |reap|)
    ensures killed == Hits(container, reap, q, |reap|)
    ensures struck == Strikes(container, reap, q, |reap|)
    ensures asked <= reap && (forall j :: 0 <= j < |asked| ==> !container.execFails(q, j))
    ensures if raised then |asked| < |reap| && container.execFails(q, |asked|) else asked == reap
  {
    asked, killed, struck := [], [], {};
    for k := 0 to |reap|
      invariant Runs(container, q, k) == k
      invariant asked == Scripts(container, reap, q, k)
      invariant killed == Hits(container, reap, q, k)
      invariant struck == Strikes(container, reap, q, k)
      invariant asked == reap[..k] && forall j :: 0 <= j < k ==> !container.execFails(q, j)
    {
      if container.execFails(q, k) {
        RunsStop(container, reap, q, k, |reap|);
        return true, asked, killed, struck;
      }
      asked := asked + [reap[k]];
      if StillThere(container.table(q, k), reap[k]) {
        killed := killed + [reap[k]];
        struck := struck + StruckBy(container.table(q, k), reap[k]);
      }
    }
    raised := false;
  }

  /** The identities a run remembers: those of its baseline scan, and every scanner
      it has used.  `baseline` is None when the baseline scan never happened. */
  class Reaper {
    const baseline: Option<set<Identity>>
    var scanners: set<Identity>

    constructor (baseline: Option<set<Identity>>, scanners: set<Identity>)
      ensures this.baseline == baseline && this.scanners == scanners
    {
      this.baseline, this.scanners := baseline, scanners;
    }

    /** One round: scan, select, kill. */
    method CleanupRound(container: Container, protect: set<int>, q: nat, ghost first: set<Identity>)
      returns (round: Round)
      requires baseline.Some? && scanners == ScannersAfter(container, first, q)
      modifies this
      ensures RoundIs(container, baseline.value, protect, first, q, round)
      ensures scanners == ScannersAfter(container, first, q + 1)
    {
      var found := container.scan(q);
      if found.ScanFailed? {
        return Round(Broke, [], [], {});
      }
      scanners := scanners + found.own;
      var reap := ReapFromEntries(found.entries, baseline.value, protect);
      DroppingScanners(found.entries, baseline.value, protect, scanners, |found.entries|);
      reap := Without(reap, scanners, |reap|);
      if reap == [] {
        return Round(Quiet, [], [], {});
      }
      var raised, asked, killed, struck := Kill(container, reap, q);
      round := Round(if raised then Broke else Worked, asked, killed, struck);
    }

    /** Scans and kills until a scan finds nothing left to reap, for at most six rounds. */
    method FinalCleanup(container: Container, protect: set<int>) returns (raised: bool, rounds: seq<Round>)
      modifies this
      ensures baseline.None? ==> raised && rounds == []
      ensures scanners == ScannersAfter(container, old(scanners), |rounds|)
      ensures baseline.Some? ==>
                && 1 <= |rounds| <= 6
                && RoundsAre(container, baseline.value, protect, old(scanners), rounds)
                && (forall q :: 0 <= q < |rounds| - 1 ==> rounds[q].outcome.Worked?)
                && (|rounds| < 6 ==> !rounds[|rounds| - 1].outcome.Worked?)
                && (raised <==> !rounds[|rounds| - 1].outcome.Quiet?)
    {
      rounds := [];
      if baseline.None? {
        return true, [];
      }
      for attempt := 0 to ROUNDS
        invariant |rounds| == attempt && scanners == ScannersAfter(container, old(scanners), attempt)
        invariant RoundsAre(container, baseline.value, protect, old(scanners), rounds)
        invariant forall q :: 0 <= q < attempt ==> rounds[q].outcome.Worked?
      {
        var round := CleanupRound(container, protect, attempt, old(scanners));
        RoundsGrow(container, baseline.value, protect, old(scanners), rounds, round);
        rounds := rounds + [round];
        if !round.outcome.Worked? {
          return round.outcome.Broke?, rounds;
        }
      }
      raised := true;
    }
  }

  // ---------- What the loop guarantees ----------

  /** A quiet round means that its scan succeeded and saw only init, protected
      processes, zombies, baseline identities and scanners. */
  lemma {:induction false} QuietRoundSawNothing(container: Container, baseline: set<Identity>, protect: set<int>,
                                                first: set<Identity>, q: nat, round: Round)
    requires RoundIs(container, baseline, protect, first, q, round) && round.outcome.Quiet?
    ensures container.scan(q).Scanned?
    ensures forall i :: 0 <= i < |container.scan(q).entries| ==>
              var entry := container.scan(q).entries[i];
              Spared(entry, baseline, protect) || IdentityOf(entry) in ScannersAfter(container, first, q + 1)
  {
    var entries, scanners := container.scan(q).entries, ScannersAfter(container, first, q + 1);
    forall i | 0 <= i < |entries|
      ensures Spared(entries[i], baseline, protect) || IdentityOf(entries[i]) in scanners
    {
      SelectionIsExact(entries, baseline, protect, scanners, |entries|, IdentityOf(entries[i]));
    }
  }

  /** A round selects exactly what its scan saw alive, unless it is init, protected, in the
      baseline, or a scanner of the baseline scan, of this round or of an earlier one. */
  lemma {:induction false} ChosenIff(container: Container, baseline: set<Identity>, protect: set<int>,
                                     first: set<Identity>, q: nat, id: Identity)
    ensures id in Chosen(container, baseline, protect, first, q) <==>
            && id.0 != 1 && id.0 !in protect && id !in baseline && id !in first
            && (forall r :: 0 <= r <= q && container.scan(r).Scanned? ==> id !in container.scan(r).own)
            && container.scan(q).Scanned?
            && exists i :: 0 <= i < |container.scan(q).entries| &&
                 var entry := container.scan(q).entries[i];
                 entry.pid == id.0 && entry.starttime == id.1 && entry.state != "Z"
  {
    ScannersIff(container, first, q + 1, id);
    if container.scan(q).Scanned? {
      var entries := container.scan(q).entries;
      SelectionIsExact(entries, baseline, protect, ScannersAfter(container, first, q + 1), |entries|, id);
    }
  }

  /** No target of a signal is one that must be left alone, a scanner of this or any
      earlier round, or a process that took over a selected pid: as the script that
      signals looks, its target is in the table with the start time of the selected
      process, and no zombie. */
  lemma {:induction false} SignalsAreSafe(container: Container, baseline: set<Identity>, protect: set<int>,
                                          first: set<Identity>, q: nat, round: Round, i: nat) returns (k: nat)
    requires RoundIs(container, baseline, protect, first, q, round) && i < |round.killed|
    ensures var id := round.killed[i];
            && id.0 != 1 && id.0 !in protect && id !in baseline && id !in first
            && (forall r :: 0 <= r <= q && container.scan(r).Scanned? ==> id !in container.scan(r).own)
            && k < |Chosen(container, baseline, protect, first, q)|
            && Chosen(container, baseline, protect, first, q)[k] == id
            && (forall j :: 0 <= j <= k ==> !container.execFails(q, j))
            && id.0 in container.table(q, k)
            && container.table(q, k)[id.0].starttime == id.1 && container.table(q, k)[id.0].state != "Z"
  {
    var reap := Chosen(container, baseline, protect, first, q);
    k := HitIsStillThere(container, reap, q, |reap|, i);
    RunsIff(container, q, k + 1);
    assert reap[k] in reap;
    ChosenIff(container, baseline, protect, first, q, reap[k]);
  }

  // ----- Beyond the targets -----

  /** Script `k` of the round runs and finds its target still there. */
  predicate SignalsAt(container: Container, reap: seq<Identity>, q: nat, k: nat) {
    k < |reap| && Runs(container, q, k + 1) == k + 1 && StillThere(container.table(q, k), reap[k])
  }

  lemma {:induction false} StrikesIff(container: Container, reap: seq<Identity>, q: nat, n: nat, id: Identity)
    requires n <= |reap|
    ensures id in Strikes(container, reap, q, n) <==>
            exists k :: 0 <= k < n && SignalsAt(container, reap, q, k) && id in StruckBy(container.table(q, k), reap[k])
  {
    if n > 0 {
      StrikesIff(container, reap, q, n - 1, id);
      if SignalsAt(container, reap, q, n - 1) && id in StruckBy(container.table(q, n - 1), reap[n - 1]) {
        assert id in Strikes(container, reap, q, n);
      }
    }
  }

  lemma {:induction false} StruckIff(table: Table, target: Identity, id: Identity)
    ensures id in StruckBy(table, target) <==>
            || (InTable(table, id) && table[id.0].group == target.0)
            || (id == target && forall pid :: pid in table ==> table[pid].group != target.0)
  {
    var group := Group(table, target.0);
    forall pid | pid in table && table[pid].group == target.0
      ensures (pid, table[pid].starttime) in group
    {
    }
    if group != {} {
      var member :| member in group;
      assert table[member.0].group == target.0;
    }
    if InTable(table, id) && table[id.0].group == target.0 {
      assert id == (id.0, table[id.0].starttime);
    }
  }

  /** A process is struck exactly when a script that is run finds its target in the table
      with its own start time, and no zombie, and the process either belongs to the group
      with the target's number or is the target of a script that finds no such group. */
  lemma {:induction false} StruckByScriptIff(container: Container, reap: seq<Identity>, q: nat, n: nat, id: Identity)
    requires n <= |reap|
    ensures id in Strikes(container, reap, q, n) <==>
            exists k :: 0 <= k < n && (forall j :: 0 <= j <= k ==> !container.execFails(q, j)) &&
              var table, target := container.table(q, k), reap[k];
              && target.0 in table && table[target.0].starttime == target.1 && table[target.0].state != "Z"
              && (|| (id.0 in table && table[id.0].starttime == id.1 && table[id.0].group == target.0)
                  || (id == target && forall pid :: pid in table ==> table[pid].group != target.0))
  {
    StrikesIff(container, reap, q, n, id);
    forall k | 0 <= k < n
      ensures Runs(container, q, k + 1) == k + 1 <==> forall j :: 0 <= j <= k ==> !container.execFails(q, j)
      ensures id in StruckBy(container.table(q, k), reap[k]) <==>
              var table, target := container.table(q, k), reap[k];
              || (id.0 in table && table[id.0].starttime == id.1 && table[id.0].group == target.0)
              || (id == target && forall pid :: pid in table ==> table[pid].group != target.0)
    {
      RunsIff(container, q, k + 1);
      StruckIff(container.table(q, k), reap[k], id);
    }
  }

  /** A target is signalled exactly when a script that is run finds it so. */
  lemma {:induction false} HitIff(container: Container, reap: seq<Identity>, q: nat, n: nat, id: Identity)
    requires n <= |reap|
    ensures id in Hits(container, reap, q, n) <==>
            exists k :: 0 <= k < n && reap[k] == id && (forall j :: 0 <= j <= k ==> !container.execFails(q, j)) &&
              var table := container.table(q, k);
              id.0 in table && table[id.0].starttime == id.1 && table[id.0].state != "Z"
  {
    if n > 0 {
      HitIff(container, reap, q, n - 1, id);
      RunsIff(container, q, n);
      assert reap[n - 1] == id ==> id.0 == reap[n - 1].0;
    }
  }

  /** The target of a signal is struck exactly when it is in the group with its own
      number, or when that group has no members: otherwise the signal to the group
      succeeds without it, and the process itself is never signalled. */
  lemma {:induction false} TargetIsStruckIff(container: Container, reap: seq<Identity>, q: nat, k: nat)
    requires SignalsAt(container, reap, q, k)
    ensures var table := container.table(q, k);
            reap[k] in StruckBy(table, reap[k]) <==>
            || table[reap[k].0].group == reap[k].0
            || forall pid :: pid in table ==> table[pid].group != reap[k].0
  {
    StruckIff(container.table(q, k), reap[k], reap[k]);
  }

  /** What the selection leaves alone. */
  predicate LeftAlone(id: Identity, baseline: set<Identity>, protect: set<int>, scanners: set<Identity>) {
    id.0 == 1 || id.0 in protect || id in baseline || id in scanners
  }

  /** A process that must be left alone is struck in a round exactly when one of the
      round's targets, as the script finds it, has the number of that process's group. */
  lemma {:induction false} SparedIsStruckIff(container: Container, baseline: set<Identity>, protect: set<int>,
                                             first: set<Identity>, q: nat, round: Round, id: Identity)
    requires RoundIs(container, baseline, protect, first, q, round)
    requires LeftAlone(id, baseline, protect, ScannersAfter(container, first, q + 1))
    ensures var reap := Chosen(container, baseline, protect, first, q);
            id in round.struck <==>
            exists k :: 0 <= k < |reap| && SignalsAt(container, reap, q, k) && InTable(container.table(q, k), id)
                        && container.table(q, k)[id.0].group == reap[k].0
  {
    var reap := Chosen(container, baseline, protect, first, q);
    StrikesIff(container, reap, q, |reap|, id);
    forall k | 0 <= k < |reap| && SignalsAt(container, reap, q, k)
      ensures id in StruckBy(container.table(q, k), reap[k]) <==>
              InTable(container.table(q, k), id) && container.table(q, k)[id.0].group == reap[k].0
    {
      var entries := container.scan(q).entries;
      StruckIff(container.table(q, k), reap[k], id);
      SelectionIsExact(entries, baseline, protect, ScannersAfter(container, first, q + 1), |entries|, reap[k]);
    }
  }

  /** A container in which process 7 is found, and at the look of the kill script the
      process groups are these. */
  function Lone(groups: Table): Container {
    Container(q => Scanned([ProcEntry(7, 1, "S", "")], {}), (q, k) => groups, (q, k) => false)
  }

  lemma {:induction false} LoneRound(groups: Table, protect: set<int>)
    requires 7 !in protect && StillThere(groups, (7, 1))
    ensures Chosen(Lone(groups), {}, protect, {}, 0) == [(7, 1)]
    ensures RoundStrikes(Lone(groups), {}, protect, {}, 0) == StruckBy(groups, (7, 1))
  {
    var container := Lone(groups);
    var entries := container.scan(0).entries;
    assert ScannersAfter(container, {}, 1) == {};
    assert Selected(entries, {}, protect, {}, 0) == [];
    assert Selected(entries, {}, protect, {}, 1) == Selected(entries, {}, protect, {}, 0) + [(7, 1)];
    assert Runs(container, 0, 0) == 0 && Runs(container, 0, 1) == 1;
    assert Strikes(container, [(7, 1)], 0, 0) == {};
  }

  /** A protected process in the group of a target is struck. */
  lemma {:induction false} ProtectedIsStruck()
    ensures var groups := map[7 := Seen(1, "S", 7), 9 := Seen(4, "S", 7)];
            (9, 4) in RoundStrikes(Lone(groups), {}, {9}, {}, 0)
  {
    var groups := map[7 := Seen(1, "S", 7), 9 := Seen(4, "S", 7)];
    LoneRound(groups, {9});
    StruckIff(groups, (7, 1), (9, 4));
  }

  /** A target that left the group with its number to another process is not. */
  lemma {:induction false} TargetIsMissed()
    ensures var groups := map[7 := Seen(1, "S", 5), 9 := Seen(4, "S", 7)];
            (7, 1) !in RoundStrikes(Lone(groups), {}, {}, {}, 0)
  {
    var groups := map[7 := Seen(1, "S", 5), 9 := Seen(4, "S", 7)];
    LoneRound(groups, {});
    StruckIff(groups, (7, 1), (7, 1));
    assert 9 in groups && groups[9].group == 7;
  }

  /** When what was asked for is gone at the next look and nothing new appeared, the
      second scan is quiet. */
  lemma {:induction false} CooperativeTableSettles(container: Container, baseline: set<Identity>, protect: set<int>,
                                                   first: set<Identity>)
    requires container.scan(0).Scanned? && container.scan(1).Scanned?
    requires forall i :: 0 <= i < |container.scan(1).entries| ==>
               var entry := container.scan(1).entries[i];
               || IdentityOf(entry) in container.scan(1).own
               || (&& entry in container.scan(0).entries
                   && IdentityOf(entry) !in Chosen(container, baseline, protect, first, 0))
    ensures Chosen(container, baseline, protect, first, 1) == []
  {
    var now, before := container.scan(1).entries, container.scan(0).entries;
    var scanners := ScannersAfter(container, first, 2);
    assert ScannersAfter(container, first, 1) <= scanners;
    if Chosen(container, baseline, protect, first, 1) != [] {
      var id := Chosen(container, baseline, protect, first, 1)[0];
      SelectionIsExact(now, baseline, protect, scanners, |now|, id);
      var i :| 0 <= i < |now| && IdentityOf(now[i]) == id && now[i].state != ZOMBIE_STATE;
      SelectionIsExact(before, baseline, protect, ScannersAfter(container, first, 1), |before|, id);
    }
  }
}
