/** The run index of a Logbook while its run goes on (RunIndexLifecycle of
    logbook/index.py).  A write either commits or raises without effect. */
module RunIndex {
  import opened Prelude

  datatype Child = Child(path: seq<string>, status: string)

  datatype Document = Document(
    status: string,
    stage: string,
    updatedAt: int,
    terminalAt: Option<int>,
    children: Option<seq<Child>>)

  /** The object's fields and what is on disk.  `statuses` is None for a run that has
      no child Logbooks. */
  datatype State = State(document: Document, statuses: Option<seq<Child>>, disk: Document)

  /** `commits` tells whether the validation and the write of this call succeed;
      `path` is None when the child's path is refused. */
  datatype Op =
    | Advance(stage: string, now: int, commits: bool)
    | RecordChild(path: Option<seq<string>>, status: string, now: int, commits: bool)
    | Finish(status: string, lastStage: Option<string>, now: int, commits: bool)

  predicate IsTerminal(status: string) {
    status == "complete" || status == "blocked" || status == "failed"
  }

  predicate IsChildStatus(status: string) {
    status == "running" || IsTerminal(status)
  }

  /** Sets a child's status, where the child is or at the end. */
  function Updated(children: seq<Child>, path: seq<string>, status: string, n: nat): seq<Child>
    requires n <= |children|
    decreases |children| - n
  {
    if n == |children| then children + [Child(path, status)]
    else if children[n].path == path then children[n := Child(path, status)]
    else Updated(children, path, status, n + 1)
  }

  // ---------- One call ----------

  function Persisted(s: State, document: Document, commits: bool): State {
    var full := document.(children := s.statuses);
    if commits then s.(document := full, disk := full) else s
  }

  function Step(s: State, op: Op): State {
    match op
    case Advance(stage, now, commits) =>
      if s.document.status != "running" then s
      else Persisted(s, s.document.(stage := stage, updatedAt := now), commits)
    case RecordChild(path, status, now, commits) =>
      if s.statuses.None? || !IsChildStatus(status) || path.None? then s
      else
        var noted := s.(statuses := Some(Updated(s.statuses.value, path.value, status, 0)));
        Persisted(noted, noted.document.(updatedAt := now), commits)
    case Finish(status, stage, now, commits) =>
      if s.document.status != "running" || !IsTerminal(status) then s
      else
        Persisted(s, s.document.(status := status, updatedAt := now, terminalAt := Some(now),
                                 stage := if stage.Some? then stage.value else s.document.stage), commits)
  }

  function Run(s: State, ops: seq<Op>, n: nat): State
    requires n <= |ops|
  {
    if n == 0 then s else Step(Run(s, ops, n - 1), ops[n - 1])
  }

  function Started(repetitions: bool, now: int): State {
    var children := if repetitions then Some([]) else None;
    var document := Document("running", "starting", now, None, children);
    State(document, children, document)
  }

  // ---------- What every run keeps ----------

  predicate OnePathEach(children: seq<Child>) {
    forall i, j :: 0 <= i < j < |children| ==> children[i].path != children[j].path
  }

  predicate Inv(s: State) {
    && s.disk == s.document
    && (s.document.status == "running" || IsTerminal(s.document.status))
    && (s.document.terminalAt.Some? <==> s.document.status != "running")
    && (s.statuses.Some? <==> s.document.children.Some?)
    && (s.statuses.Some? ==> OnePathEach(s.statuses.value))
  }

  lemma {:induction false} UpdatedIs(children: seq<Child>, path: seq<string>, status: string, n: nat)
    requires n <= |children| && OnePathEach(children) && forall i :: 0 <= i < n ==> children[i].path != path
    ensures var now := Updated(children, path, status, n);
            && OnePathEach(now) && Child(path, status) in now
            && (forall child :: child in now && child.path != path <==> child in children && child.path != path)
            && |children| <= |now| <= |children| + 1
            && (forall i :: 0 <= i < |children| ==> now[i].path == children[i].path)
    decreases |children| - n
  {
    if n == |children| {
      var now := children + [Child(path, status)];
      assert now[|children|] == Child(path, status);
    } else if children[n].path == path {
      var now := children[n := Child(path, status)];
      assert now[n] == Child(path, status);
      forall child | child in children && child.path != path
        ensures child in now
      {
        var i :| 0 <= i < |children| && children[i] == child;
        assert now[i] == child;
      }
    } else {
      UpdatedIs(children, path, status, n + 1);
    }
  }

  lemma {:induction false} StepKeepsInv(s: State, op: Op)
    requires Inv(s)
    ensures Inv(Step(s, op))
  {
    if op.RecordChild? && s.statuses.Some? && op.path.Some? {
      UpdatedIs(s.statuses.value, op.path.value, op.status, 0);
    }
  }

  /** The memory and the disk agree after every run, whichever writes fail. */
  lemma {:induction false} RunKeepsInv(repetitions: bool, now: int, ops: seq<Op>, n: nat)
    requires n <= |ops|
    ensures Inv(Run(Started(repetitions, now), ops, n))
  {
    if n > 0 {
      RunKeepsInv(repetitions, now, ops, n - 1);
      StepKeepsInv(Run(Started(repetitions, now), ops, n - 1), ops[n - 1]);
    }
  }

  /** Once the index is terminal, its status, stage and end never change again. */
  lemma {:induction false} TerminalIsFinal(s: State, ops: seq<Op>, n: nat)
    requires n <= |ops| && s.document.status != "running"
    ensures var t := Run(s, ops, n).document;
            t.status == s.document.status && t.stage == s.document.stage && t.terminalAt == s.document.terminalAt
  {
    if n > 0 {
      TerminalIsFinal(s, ops, n - 1);
    }
  }

  /** Only a recorded child can still change a terminal index, and it does so exactly
      when the call is accepted, commits and brings something new. */
  lemma {:induction false} TerminalChangesIff(s: State, op: Op)
    requires Inv(s) && s.document.status != "running"
    ensures Step(s, op).document != s.document <==>
            && op.RecordChild? && op.commits && s.statuses.Some? && IsChildStatus(op.status) && op.path.Some?
            && (op.now != s.document.updatedAt
                || s.document.children != Some(Updated(s.statuses.value, op.path.value, op.status, 0)))
  {
  }

  // ---------- Children that were noted but not written ----------

  predicate Synced(s: State) {
    s.document.children == s.statuses
  }

  /** Whether a call gets as far as writing. */
  predicate Accepted(s: State, op: Op) {
    match op
    case Advance(_, _, _) => s.document.status == "running"
    case RecordChild(path, status, _, _) => s.statuses.Some? && IsChildStatus(status) && path.Some?
    case Finish(status, _, _, _) => s.document.status == "running" && IsTerminal(status)
  }

  /** When a call leaves memory and index agreeing on the children: it is accepted and
      commits; or it is a child's recording that fails to commit and brings nothing that
      the index does not hold already; or it touches neither and they agreed before. */
  lemma {:induction false} SyncedIff(s: State, op: Op)
    requires Inv(s)
    ensures Synced(Step(s, op)) <==>
            || (op.commits && Accepted(s, op))
            || (if op.RecordChild? && Accepted(s, op) then
                  s.document.children == Some(Updated(s.statuses.value, op.path.value, op.status, 0))
                else Synced(s))
  {
  }

  /** A child whose recording raised appears in the index after the next advance. */
  lemma {:induction false} FailedRecordIsPublished(s: State, path: seq<string>, status: string, now: int, stage: string)
    requires Inv(s) && s.document.status == "running" && s.statuses.Some? && IsChildStatus(status)
    ensures var failed := Step(s, RecordChild(Some(path), status, now, false));
            var advanced := Step(failed, Advance(stage, now, true));
            && failed.document == s.document
            && advanced.disk.children.Some? && Child(path, status) in advanced.disk.children.value
  {
    UpdatedIs(s.statuses.value, path, status, 0);
  }

  // ---------- What the index tells about a run ----------

  ghost predicate IsEnd(status: string) {
    status == "complete" || status == "blocked" || status == "failed"
  }

  /** A call that ends a running index. */
  ghost predicate Ends(op: Op) {
    op.Finish? && op.commits && IsEnd(op.status)
  }

  /** A call that notes a child, whether or not it commits. */
  ghost predicate Notes(op: Op, path: seq<string>) {
    op.RecordChild? && op.path == Some(path) && (op.status == "running" || IsEnd(op.status))
  }

  /** The first committed finish with a terminal status decides status and end, and may
      name the last stage; until then the index is running. */
  lemma {:induction false} StatusTells(repetitions: bool, now: int, ops: seq<Op>, n: nat)
    requires n <= |ops|
    ensures var document := Run(Started(repetitions, now), ops, n).document;
            && (document.status == "running" <==> forall k :: 0 <= k < n ==> !Ends(ops[k]))
            && (document.status == "running" ==> document.terminalAt.None?)
            && forall k :: 0 <= k < n && Ends(ops[k]) && (forall j :: 0 <= j < k ==> !Ends(ops[j])) ==>
                 && document.status == ops[k].status && document.terminalAt == Some(ops[k].now)
                 && document.stage == (if ops[k].lastStage.Some? then ops[k].lastStage.value
                                       else Run(Started(repetitions, now), ops, k).document.stage)
  {
    if n > 0 {
      StatusTells(repetitions, now, ops, n - 1);
      EndStep(Run(Started(repetitions, now), ops, n - 1), ops[n - 1]);
    }
  }

  lemma {:induction false} EndStep(s: State, op: Op)
    ensures var before, after := s.document, Step(s, op).document;
            if before.status == "running" && Ends(op) then
              && after.status == op.status && after.terminalAt == Some(op.now)
              && after.stage == (if op.lastStage.Some? then op.lastStage.value else before.stage)
            else
              && after.status == before.status && after.terminalAt == before.terminalAt
              && (before.status != "running" ==> after.stage == before.stage)
  {
  }

  /** A running index is in the stage of its last committed advance. */
  lemma {:induction false} StageTells(repetitions: bool, now: int, ops: seq<Op>, n: nat)
    requires n <= |ops| && Run(Started(repetitions, now), ops, n).document.status == "running"
    ensures var stage := Run(Started(repetitions, now), ops, n).document.stage;
            && ((forall k :: 0 <= k < n ==> !(ops[k].Advance? && ops[k].commits)) ==> stage == "starting")
            && forall k :: 0 <= k < n && ops[k].Advance? && ops[k].commits
                           && (forall j :: k < j < n ==> !(ops[j].Advance? && ops[j].commits)) ==>
                             stage == ops[k].stage
  {
    if n > 0 {
      TerminalStays(Run(Started(repetitions, now), ops, n - 1), ops[n - 1]);
      StageTells(repetitions, now, ops, n - 1);
    }
  }

  lemma {:induction false} TerminalStays(s: State, op: Op)
    requires Step(s, op).document.status == "running"
    ensures s.document.status == "running"
  {
  }

  /** A run with repetitions lists exactly the children that were noted, and another none. */
  lemma {:induction false} ListedIff(repetitions: bool, now: int, ops: seq<Op>, n: nat, path: seq<string>)
    requires n <= |ops|
    ensures var s := Run(Started(repetitions, now), ops, n);
            && (s.statuses.Some? <==> repetitions)
            && (repetitions ==>
              ((exists child :: child in s.statuses.value && child.path == path) <==>
               exists k :: 0 <= k < n && Notes(ops[k], path)))
  {
    if n > 0 {
      ListedIff(repetitions, now, ops, n - 1, path);
      RunKeepsInv(repetitions, now, ops, n - 1);
      NoteStep(Run(Started(repetitions, now), ops, n - 1), ops[n - 1], path);
    }
  }

  /** A child has, in memory, the status that was noted for it last. */
  lemma {:induction false} ChildrenTell(repetitions: bool, now: int, ops: seq<Op>, n: nat, path: seq<string>)
    requires n <= |ops|
    ensures var s := Run(Started(repetitions, now), ops, n);
            s.statuses.Some? ==>
              forall k :: 0 <= k < n && Notes(ops[k], path) && (forall j :: k < j < n ==> !Notes(ops[j], path)) ==>
                            Child(path, ops[k].status) in s.statuses.value
  {
    if n > 0 {
      var before, op := Run(Started(repetitions, now), ops, n - 1), ops[n - 1];
      ChildrenTell(repetitions, now, ops, n - 1, path);
      RunKeepsInv(repetitions, now, ops, n - 1);
      NoteStep(before, op, path);
    }
  }

  lemma {:induction false} NoteStep(s: State, op: Op, path: seq<string>)
    requires Inv(s)
    ensures Step(s, op).statuses.Some? <==> s.statuses.Some?
    ensures s.statuses.Some? ==>
              var before, after := s.statuses.value, Step(s, op).statuses.value;
              if Notes(op, path) then Child(path, op.status) in after
              else forall child: Child :: child.path == path ==> (child in after <==> child in before)
  {
    if s.statuses.Some? && op.RecordChild? && op.path.Some? && Notes(op, op.path.value) {
      UpdatedIs(s.statuses.value, op.path.value, op.status, 0);
    }
  }

  /** What is on disk after a call: all that is in memory if it was accepted and committed,
      with its time; otherwise what was there. */
  lemma {:induction false} DiskTells(s: State, op: Op)
    requires Inv(s)
    ensures var t := Step(s, op);
            && (if op.commits && Accepted(s, op) then
                  t.disk == t.document && t.disk.children == t.statuses && t.disk.updatedAt == op.now
                else t.disk == s.disk)
            && (Accepted(s, op) <==>
              || (op.Advance? && s.document.status == "running")
              || (op.RecordChild? && s.statuses.Some? && op.path.Some? && Notes(op, op.path.value))
              || (op.Finish? && s.document.status == "running" && IsEnd(op.status)))
  {
  }

  // ---------- The object ----------

  class RunIndexLifecycle {
    var document: Document
    var statuses: Option<seq<Child>>
    var disk: Document

    constructor (repetitions: bool, now: int)
      ensures View() == Started(repetitions, now)
    {
      var children := if repetitions then Some([]) else None;
      statuses := children;
      document := Document("running", "starting", now, None, children);
      disk := Document("running", "starting", now, None, children);
    }

    function View(): State
      reads this
    {
      State(document, statuses, disk)
    }

    method Persist(updated: Document, commits: bool) returns (ok: bool)
      modifies this`document, this`disk
      ensures ok <==> commits
      ensures View() == Persisted(old(View()), updated, commits)
    {
      var full := updated.(children := statuses);
      if !commits {
        return false;
      }
      disk := full;
      document := full;
      ok := true;
    }

    method Advance(stage: string, now: int, commits: bool) returns (ok: bool)
      modifies this`document, this`disk
      ensures ok <==> Accepted(old(View()), Op.Advance(stage, now, commits)) && commits
      ensures View() == Step(old(View()), Op.Advance(stage, now, commits))
    {
      if document.status != "running" {
        return false;
      }
      ok := Persist(document.(stage := stage, updatedAt := now), commits);
    }

    method RecordChild(path: Option<seq<string>>, status: string, now: int, commits: bool) returns (ok: bool)
      modifies this
      ensures ok <==> Accepted(old(View()), Op.RecordChild(path, status, now, commits)) && commits
      ensures View() == Step(old(View()), Op.RecordChild(path, status, now, commits))
    {
      if statuses.None? || !IsChildStatus(status) || path.None? {
        return false;
      }
      statuses := Some(Updated(statuses.value, path.value, status, 0));
      ok := Persist(document.(updatedAt := now), commits);
    }

    method Finish(status: string, stage: Option<string>, now: int, commits: bool) returns (ok: bool)
      modifies this`document, this`disk
      ensures ok <==> Accepted(old(View()), Op.Finish(status, stage, now, commits)) && commits
      ensures View() == Step(old(View()), Op.Finish(status, stage, now, commits))
    {
      if document.status != "running" || !IsTerminal(status) {
        return false;
      }
      var updated := document.(status := status, updatedAt := now, terminalAt := Some(now));
      if stage.Some? {
        updated := updated.(stage := stage.value);
      }
      ok := Persist(updated, commits);
    }

    /** Marks a running index as failed; an index that has ended is left alone. */
    method RecordFailure(now: int, commits: bool)
      modifies this`document, this`disk
      ensures View() == if old(document.status) != "running" then old(View())
                        else Step(old(View()), Op.Finish("failed", None, now, commits))
    {
      if document.status == "running" {
        var ok := Finish("failed", None, now, commits);
      }
    }
  }
}
