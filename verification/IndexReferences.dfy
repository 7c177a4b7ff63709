/** References from a run index into its Logbook (logbook/index.py), on a POSIX host
    and with lexical path resolution: no symbolic links.  `fold` is how Windows paths
    forget case. */
module IndexReferences {
  import opened Prelude
  import opened PurePaths
  import opened Text

  /** `resolve` of an absolute path: `..` leaves the directory, and the root is its
      own parent. */
  function Resolved(parts: seq<string>, n: nat): seq<string>
    requires n <= |parts|
  {
    if n == 0 then []
    else
      var before := Resolved(parts, n - 1);
      if parts[n - 1] != ".." then before + [parts[n - 1]]
      else if before == [] then []
      else before[..|before| - 1]
  }

  function Resolve(parts: seq<string>): seq<string> {
    Resolved(parts, |parts|)
  }

  // ---------- Writing and reading references ----------

  /** Where a value points: from the Logbook if it is relative. */
  function Pointed(root: seq<string>, value: string): seq<string> {
    if Parse(value).absolute then Parse(value).parts else root + Parse(value).parts
  }

  /** The path recorded for `value`, relative to the Logbook. */
  function RelativeLogbookPath(root: seq<string>, value: string): Result<seq<string>> {
    if '\\' in value || ".." in Parse(value).parts then Err("path escapes the Logbook")
    else
      var resolved := Resolve(Pointed(root, value));
      if !(root <= resolved) || resolved == root then Err("path escapes the Logbook")
      else Ok(resolved[|root|..])
  }

  /** A reference of the first format is read as a Windows path if it or its recorded
      Logbook looks like one. */
  predicate IsWindows(value: string, recordedRoot: string) {
    '\\' in value || '\\' in recordedRoot || Drive(value) != "" || Drive(recordedRoot) != ""
  }

  /** A reference of the first index format, which recorded its Logbook's own path, as
      the components that it stands for. */
  function NormalizeV1Reference(value: string, recordedRoot: string, fold: string -> string): Result<seq<string>> {
    var windows := IsWindows(value, recordedRoot);
    var reference, root := Read(value, windows), Read(recordedRoot, windows);
    if reference.absolute then
      if !root.absolute || !IsRelativeTo(reference, root, windows, fold) then Err("reference is outside its Logbook")
      else Ok(RelativeTo(reference, root, windows, fold))
    else if !root.absolute && IsRelativeTo(reference, root, windows, fold) then
      Ok(RelativeTo(reference, root, windows, fold))
    else Ok(Components(reference))
  }

  function PlainReference(value: string): Result<seq<string>> {
    if '\\' in value then Err("reference must use forward slashes")
    else if Parse(value).absolute then Err("reference must be relative")
    else Ok(Parse(value).parts)
  }

  /** Where the components of a reference lead before the last test. */
  function Unguarded(root: seq<string>, value: string, recordedRoot: Option<string>, fold: string -> string)
    : Result<seq<string>>
  {
    var reference := if recordedRoot.None? then PlainReference(value)
                     else NormalizeV1Reference(value, recordedRoot.value, fold);
    if reference.Err? then Err(reference.message)
    else if reference.value == [] || ".." in reference.value then Err("reference escapes the Logbook")
    else Ok(Resolve(root + reference.value))
  }

  /** The place in the Logbook at `root` that a recorded value stands for. */
  function ResolveIndexReference(root: seq<string>, value: string, recordedRoot: Option<string>,
                                 fold: string -> string): Result<seq<string>> {
    var resolved := Unguarded(root, value, recordedRoot, fold);
    if resolved.Ok? && (!(root <= resolved.value) || resolved.value == root) then Err("reference escapes the Logbook")
    else resolved
  }

  // ---------- Resolving names ----------

  lemma {:induction false} NoDotsResolve(parts: seq<string>)
    requires AreNames(parts)
    ensures Resolve(parts) == parts
  {
    NoDotsResolveFirst(parts, |parts|);
    assert parts[..|parts|] == parts;
  }

  lemma {:induction false} NoDotsResolveFirst(parts: seq<string>, n: nat)
    requires n <= |parts| && AreNames(parts)
    ensures Resolved(parts, n) == parts[..n]
  {
    if n > 0 {
      NoDotsResolveFirst(parts, n - 1);
      assert IsName(parts[n - 1]);
      assert parts[..n] == parts[..n - 1] + [parts[n - 1]];
    }
  }

  // ---------- What is recorded ----------

  /** A value is recorded exactly when it has no backslash and no `..` and points
      strictly below the Logbook; what is recorded is where it points. */
  lemma {:induction false} RecordedIff(root: seq<string>, value: string)
    requires AreNames(root)
    ensures RelativeLogbookPath(root, value).Ok? <==>
            '\\' !in value && ".." !in Parse(value).parts && root < Pointed(root, value)
    ensures RelativeLogbookPath(root, value).Ok? ==>
              var relative := RelativeLogbookPath(root, value).value;
              && relative != [] && AreNames(relative) && root + relative == Pointed(root, value)
              && forall i :: 0 <= i < |relative| ==> '\\' !in relative[i]
  {
    if '\\' !in value && ".." !in Parse(value).parts {
      ParsedAreNames(value);
      NoDotsResolve(Pointed(root, value));
      if root < Pointed(root, value) {
        PointedBelow(root, value);
      }
    }
  }

  lemma {:induction false} PointedBelow(root: seq<string>, value: string)
    requires AreNames(Parse(value).parts) && root < Pointed(root, value)
    requires forall i :: 0 <= i < |Parse(value).parts| ==> '\\' !in Parse(value).parts[i]
    ensures var relative := Pointed(root, value)[|root|..];
            && relative != [] && AreNames(relative) && root + relative == Pointed(root, value)
            && forall i :: 0 <= i < |relative| ==> '\\' !in relative[i]
  {
    var parts, relative := Parse(value).parts, Pointed(root, value)[|root|..];
    forall i | 0 <= i < |relative|
      ensures IsName(relative[i]) && '\\' !in relative[i]
    {
      assert relative[i] == if Parse(value).absolute then parts[|root| + i] else parts[i];
    }
  }

  // ---------- Reading back ----------

  /** Components without `..` lead below the Logbook, and nowhere else. */
  lemma {:induction false} ComponentsStayBelow(root: seq<string>, parts: seq<string>)
    requires AreNames(root) && AreComponents(parts) && ".." !in parts
    ensures AreNames(parts) && Resolve(root + parts) == root + parts
    ensures root <= root + parts && (root + parts == root <==> parts == [])
  {
    NamesAreComponents(parts);
    NoDotsResolve(root + parts);
    assert parts != [] ==> |root + parts| > |root|;
  }

  /** Which values the current format accepts, and where they lead. */
  lemma {:induction false} AcceptedIff(root: seq<string>, value: string, fold: string -> string)
    requires AreNames(root)
    ensures var resolved := ResolveIndexReference(root, value, None, fold);
            && (resolved.Ok? <==>
              && '\\' !in value && !Parse(value).absolute
              && Parse(value).parts != [] && ".." !in Parse(value).parts)
            && (resolved.Ok? ==> resolved.value == root + Parse(value).parts)
  {
    if ".." !in Parse(value).parts {
      KeptOfText(value, '/');
      ComponentsStayBelow(root, Parse(value).parts);
    }
  }

  lemma {:induction false} NormalizedComponents(value: string, recordedRoot: string, fold: string -> string)
    requires NormalizeV1Reference(value, recordedRoot, fold).Ok?
    ensures AreComponents(NormalizeV1Reference(value, recordedRoot, fold).value)
  {
    var windows := IsWindows(value, recordedRoot);
    var reference, root := Read(value, windows), Read(recordedRoot, windows);
    ReadComponents(value, windows);
    if IsRelativeTo(reference, root, windows, fold) {
      RereadAvoids(reference.tail[|root.tail|..], fold, '/');
    }
  }

  /** Whether a historical reference is written below its recorded Logbook; both may be
      absolute, or neither. */
  predicate WrittenBelow(value: string, recordedRoot: string, fold: string -> string) {
    var windows := IsWindows(value, recordedRoot);
    var reference, recorded := Read(value, windows), Read(recordedRoot, windows);
    reference.absolute == recorded.absolute && IsRelativeTo(reference, recorded, windows, fold)
  }

  /** What a historical reference stands for: what follows its recorded Logbook, or else
      itself, its drive and root being components like others. */
  function StandsFor(value: string, recordedRoot: string, fold: string -> string): seq<string> {
    var windows := IsWindows(value, recordedRoot);
    if WrittenBelow(value, recordedRoot, fold) then
      RelativeTo(Read(value, windows), Read(recordedRoot, windows), windows, fold)
    else Components(Read(value, windows))
  }

  /** Which values the historical format accepts, and where they lead, whichever flavour
      they are read in: those written below their recorded Logbook and all that are not
      absolute, if what they stand for is something without `..`. */
  lemma {:induction false} HistoricalAcceptedIff(root: seq<string>, value: string, recordedRoot: string,
                                                 fold: string -> string)
    requires AreNames(root)
    ensures var absolute := Read(value, IsWindows(value, recordedRoot)).absolute;
            var relative := StandsFor(value, recordedRoot, fold);
            var resolved := ResolveIndexReference(root, value, Some(recordedRoot), fold);
            && (resolved.Ok? <==>
              (WrittenBelow(value, recordedRoot, fold) || !absolute) && relative != [] && ".." !in relative)
            && (resolved.Ok? ==> resolved.value == root + relative && AreNames(relative))
  {
    var normalized := NormalizeV1Reference(value, recordedRoot, fold);
    if normalized.Ok? {
      NormalizedComponents(value, recordedRoot, fold);
      if ".." !in normalized.value {
        ComponentsStayBelow(root, normalized.value);
      }
    }
  }

  /** On a POSIX host, in neither format and neither flavour does the last test of the
      code ever fire: whatever passes the tests before it leads strictly below the
      Logbook. */
  lemma {:induction false} GuardNeverFires(root: seq<string>, value: string, recordedRoot: Option<string>,
                                           fold: string -> string)
    requires AreNames(root)
    ensures var resolved := Unguarded(root, value, recordedRoot, fold);
            && (resolved.Ok? ==> root < resolved.value)
            && ResolveIndexReference(root, value, recordedRoot, fold) == resolved
  {
    if Unguarded(root, value, recordedRoot, fold).Ok? {
      if recordedRoot.None? {
        KeptOfText(value, '/');
        ComponentsStayBelow(root, Parse(value).parts);
      } else {
        NormalizedComponents(value, recordedRoot.value, fold);
        ComponentsStayBelow(root, NormalizeV1Reference(value, recordedRoot.value, fold).value);
      }
    }
  }

  /** What the writer records, the reader resolves to the same place, and to the same
      relative place once the Logbook was moved to `moved`. */
  lemma {:induction false} ReferenceRoundTrip(root: seq<string>, moved: seq<string>, value: string,
                                              fold: string -> string)
    requires AreNames(root) && AreNames(moved) && RelativeLogbookPath(root, value).Ok?
    ensures var relative := RelativeLogbookPath(root, value).value;
            && ResolveIndexReference(root, Posix(relative), None, fold) == Ok(Pointed(root, value))
            && ResolveIndexReference(moved, Posix(relative), None, fold) == Ok(moved + relative)
  {
    RecordedIff(root, value);
    var relative := RelativeLogbookPath(root, value).value;
    JoinParses(relative);
    JoinAvoids(relative, '/', '\\');
    NamesAreComponents(relative);
    AcceptedIff(root, Posix(relative), fold);
    AcceptedIff(moved, Posix(relative), fold);
  }
}
