/** What becomes of references that an index of the first format recorded as whole
    paths, on Windows or not, once the Logbook has moved (logbook/index.py). */
module HistoricalReferences {
  import opened Prelude
  import opened Text
  import opened PurePaths
  import opened IndexReferences

  /** Acceptance and the place inside the Logbook do not depend on where the Logbook is. */
  lemma {:induction false} HistoricalReferenceRelocates(root: seq<string>, moved: seq<string>, value: string,
                                                        recordedRoot: string, fold: string -> string)
    requires AreNames(root) && AreNames(moved)
    ensures var before := ResolveIndexReference(root, value, Some(recordedRoot), fold);
            var after := ResolveIndexReference(moved, value, Some(recordedRoot), fold);
            && (before.Ok? <==> after.Ok?)
            && (before.Ok? ==> root <= before.value && after.value == moved + before.value[|root|..])
  {
    HistoricalAcceptedIff(root, value, recordedRoot, fold);
    HistoricalAcceptedIff(moved, value, recordedRoot, fold);
  }

  // ---------- Texts put together ----------

  /** What a character before a text does to its split. */
  function Prepended(c: char, sep: char, parts: seq<string>): seq<string>
    requires parts != []
  {
    if c == sep then [""] + parts else [[c] + parts[0]] + parts[1..]
  }

  lemma {:induction false} PrependedAppend(c: char, sep: char, first: seq<string>, others: seq<string>)
    requires first != []
    ensures Prepended(c, sep, first + others) == Prepended(c, sep, first) + others
  {
    assert (first + others)[0] == first[0] && (first + others)[1..] == first[1..] + others;
  }

  lemma {:induction false} SplitAppend(a: string, b: string, sep: char)
    ensures Split(a + [sep] + b, sep) == Split(a, sep) + Split(b, sep)
    decreases |a|
  {
    var whole := a + [sep] + b;
    if a == "" {
      assert whole[1..] == b;
    } else {
      assert whole[1..] == a[1..] + [sep] + b;
      SplitAppend(a[1..], b, sep);
      assert Split(whole, sep) == Prepended(a[0], sep, Split(a[1..], sep) + Split(b, sep));
      PrependedAppend(a[0], sep, Split(a[1..], sep), Split(b, sep));
    }
  }

  lemma {:induction false} KeptAppend(a: seq<string>, b: seq<string>, n: nat)
    requires n <= |b|
    ensures Kept(a + b, |a| + n) == Kept(a, |a|) + Kept(b, n)
  {
    if n == 0 {
      KeptPrefix(a, b, |a|);
    } else {
      KeptAppend(a, b, n - 1);
    }
  }

  lemma {:induction false} KeptPrefix(a: seq<string>, b: seq<string>, n: nat)
    requires n <= |a|
    ensures Kept(a + b, n) == Kept(a, n)
  {
    if n > 0 {
      KeptPrefix(a, b, n - 1);
    }
  }

  lemma {:induction false} FindExtends(p: string, more: string, c: char, start: nat)
    requires start <= |p| && Find(p, c, start) < |p|
    ensures Find(p + more, c, start) == Find(p, c, start)
    decreases |p| - start
  {
    if p[start] != c {
      FindExtends(p, more, c, start + 1);
    }
  }

  /** A share that its root follows is long enough to show whether it is of the long form. */
  lemma {:induction false} UncExtends(p: string, more: string)
    requires |p| >= 2 && p[0] == '\\' && p[1] == '\\' && CutRoot(p).root
    ensures IsUnc(p + more) <==> IsUnc(p)
  {
    var whole := p + more;
    assert |p| < 8 ==> Find(p, '\\', 2) <= 3 || whole[3] != '\\';
  }

  lemma {:induction false} SliceExtends(p: string, more: string, k: nat)
    requires k <= |p|
    ensures (p + more)[..k] == p[..k] && (p + more)[k..] == p[k..] + more
  {
  }

  lemma {:induction false} CutShare(p: string, first: nat, second: nat)
    requires |p| >= 2 && p[0] == '\\' && p[1] == '\\' && first < |p| && second < |p|
    requires first == Find(p, '\\', if IsUnc(p) then 8 else 2) && second == Find(p, '\\', first + 1)
    ensures CutRoot(p) == Cut(p[..second], true, p[second + 1..])
  {
  }

  lemma {:induction false} ShareExtends(p: string, more: string, first: nat, second: nat)
    requires |p| >= 2 && p[0] == '\\' && p[1] == '\\' && CutRoot(p).root
    requires first == Find(p, '\\', if IsUnc(p) then 8 else 2) && first < |p|
    requires second == Find(p, '\\', first + 1) && second < |p|
    ensures CutRoot(p + more) == Cut(p[..second], true, p[second + 1..] + more)
  {
    UncExtends(p, more);
    FindExtends(p, more, '\\', if IsUnc(p) then 8 else 2);
    FindExtends(p, more, '\\', first + 1);
    CutShare(p + more, first, second);
    SliceExtends(p, more, second);
    SliceExtends(p, more, second + 1);
  }

  lemma {:induction false} LetterExtends(p: string, more: string)
    requires |p| >= 3 && p[0] != '\\' && p[1] == ':' && p[2] == '\\'
    ensures CutRoot(p + more) == Cut(p[..2], true, p[3..] + more)
  {
    var whole := p + more;
    assert whole[..2] == p[..2] && whole[3..] == p[3..] + more;
  }

  /** Text after a path with a drive and a root belongs to the rest of the path. */
  lemma {:induction false} CutRootExtends(p: string, more: string)
    requires CutRoot(p).root && CutRoot(p).drive != ""
    ensures CutRoot(p + more) == CutRoot(p).(rest := CutRoot(p).rest + more)
  {
    if p[0] == '\\' {
      var first := Find(p, '\\', if IsUnc(p) then 8 else 2);
      ShareExtends(p, more, first, Find(p, '\\', first + 1));
    } else {
      LetterExtends(p, more);
    }
  }

  lemma {:induction false} NamesReread(tail: seq<string>, n: nat, fold: string -> string)
    requires n <= |tail| && forall i :: 0 <= i < n ==> !HasDrive(tail[i])
    ensures Rejoin(tail, n, fold) == Joined("", tail[..n])
  {
    if n > 0 {
      NamesReread(tail, n - 1, fold);
      assert tail[..n] == tail[..n - 1] + [tail[n - 1]];
    }
  }

  /** Names without a drive are read again as they are. */
  lemma {:induction false} RereadNames(names: seq<string>, fold: string -> string)
    requires AreNames(names) && forall i :: 0 <= i < |names| ==> !HasDrive(names[i])
    ensures Reread(names, fold) == names
  {
    NamesReread(names, |names|, fold);
    assert names[..|names|] == names;
    NamesAreKept(names, |names|);
  }

  // ---------- References written on Windows ----------

  /** Two texts for the same directory with a drive and a root: they may differ in case
      and in their separators. */
  predicate SameDirectory(base: string, recordedRoot: string, fold: string -> string) {
    && Read(base, true).absolute && Read(recordedRoot, true).absolute
    && IsRelativeTo(Read(base, true), Read(recordedRoot, true), true, fold)
    && |WindowsTail(base)| == |WindowsTail(recordedRoot)|
  }

  /** The tail of a path that goes on after `base`, with whatever separators. */
  lemma {:induction false} WindowsTailExtends(base: string, value: string, relative: seq<string>)
    requires Drive(base) != "" && CutRoot(Backslashed(base)).root
    requires AreNames(relative) && relative != [] && forall i :: 0 <= i < |relative| ==> '\\' !in relative[i]
    requires Backslashed(value) == Backslashed(base) + "\\" + Join(relative, '\\')
    ensures Drive(value) == Drive(base) && HasRoot(value) && HasRoot(base)
    ensures WindowsTail(value) == WindowsTail(base) + relative
  {
    var p, last := Backslashed(base), Join(relative, '\\');
    var rest := CutRoot(p).rest;
    assert p + "\\" + last == p + ("\\" + last);
    CutRootExtends(p, "\\" + last);
    assert rest + ("\\" + last) == rest + ['\\'] + last;
    SplitAppend(rest, last, '\\');
    SplitJoin(relative, '\\');
    KeptAppend(Split(rest, '\\'), relative, |relative|);
    NamesAreKept(relative, |relative|);
    assert relative[..|relative|] == relative;
  }

  /** A file that was recorded below its Logbook on Windows, whatever the drive or share,
      the separators and the case, relocates with the Logbook. */
  lemma {:induction false} WindowsReferenceRelocates(moved: seq<string>, value: string, recordedRoot: string,
                                                     base: string, relative: seq<string>, fold: string -> string)
    requires AreNames(moved) && SameDirectory(base, recordedRoot, fold) && CutRoot(Backslashed(base)).root
    requires AreNames(relative) && relative != []
    requires forall i :: 0 <= i < |relative| ==> '\\' !in relative[i] && !HasDrive(relative[i])
    requires Backslashed(value) == Backslashed(base) + "\\" + Join(relative, '\\')
    ensures ResolveIndexReference(moved, value, Some(recordedRoot), fold) == Ok(moved + relative)
  {
    WindowsTailExtends(base, value, relative);
    assert IsWindows(value, recordedRoot);
    var reference, recorded := Read(value, true), Read(recordedRoot, true);
    assert reference.anchor == Read(base, true).anchor;
    assert forall i :: 0 <= i < |recorded.tail| ==> reference.tail[i] == WindowsTail(base)[i];
    assert IsRelativeTo(reference, recorded, true, fold);
    assert reference.tail[|recorded.tail|..] == relative;
    RereadNames(relative, fold);
    NamesAreComponents(relative);
    HistoricalAcceptedIff(moved, value, recordedRoot, fold);
  }

  // ---------- References written on POSIX ----------

  /** Components split again at backslashes. */
  function Flat(parts: seq<string>): seq<string> {
    if parts == [] then [] else Split(parts[0], '\\') + Flat(parts[1..])
  }

  function Pieces(parts: seq<string>): seq<string> {
    Kept(Flat(parts), |Flat(parts)|)
  }

  lemma {:induction false} FlatOfHead(head: string, rest: seq<string>)
    ensures Flat([head] + rest) == Split(head, '\\') + Flat(rest)
  {
    assert ([head] + rest)[1..] == rest;
  }

  /** Splitting at forward slashes and then at backslashes is splitting at both. */
  lemma {:induction false} SplitBoth(s: string)
    ensures Flat(Split(s, '/')) == Split(Backslashed(s), '\\')
    decreases |s|
  {
    if s == "" {
      FlatOfHead("", []);
      assert [""] + [] == [""];
    } else {
      SplitBoth(s[1..]);
      SplitBothStep(s, Split(s[1..], '/'), Backslashed(s[1..]));
    }
  }

  lemma {:induction false} SplitBothStep(s: string, rest: seq<string>, tail: string)
    requires s != "" && rest == Split(s[1..], '/') && tail == Backslashed(s[1..])
    requires Flat(rest) == Split(tail, '\\')
    ensures Flat(Split(s, '/')) == Split(Backslashed(s), '\\')
  {
    assert Backslashed(s)[1..] == tail;
    assert Split(Backslashed(s), '\\') == Prepended(Backslashed(s)[0], '\\', Flat(rest));
    if s[0] == '/' {
      FlatOfHead("", rest);
    } else {
      FlatOfPrepended(s[0], rest);
    }
  }

  lemma {:induction false} FlatOfPrepended(c: char, rest: seq<string>)
    requires c != '/' && rest != []
    ensures Flat(Prepended(c, '/', rest)) == Prepended(c, '\\', Flat(rest))
  {
    var head := [c] + rest[0];
    assert head[1..] == rest[0];
    assert Split(head, '\\') == Prepended(c, '\\', Split(rest[0], '\\'));
    FlatOfHead(head, rest[1..]);
    PrependedAppend(c, '\\', Split(rest[0], '\\'), Flat(rest[1..]));
  }

  lemma {:induction false} KeptOfAppend(a: seq<string>, b: seq<string>)
    ensures Kept(a + b, |a + b|) == Kept(a, |a|) + Kept(b, |b|)
  {
    KeptAppend(a, b, |b|);
  }

  lemma {:induction false} PiecesOfHead(head: string, rest: seq<string>)
    ensures Pieces([head] + rest) == Pieces([head]) + Pieces(rest)
  {
    FlatOfHead(head, rest);
    FlatOfHead(head, []);
    assert [head] + [] == [head] && Split(head, '\\') + [] == Split(head, '\\');
    KeptOfAppend(Split(head, '\\'), Flat(rest));
  }

  lemma {:induction false} PiecesAppend(a: seq<string>, b: seq<string>)
    ensures Pieces(a + b) == Pieces(a) + Pieces(b)
    decreases |a|
  {
    if a == [] {
      assert a + b == b;
    } else {
      PiecesAppend(a[1..], b);
      PiecesOfHead(a[0], a[1..] + b);
      PiecesOfHead(a[0], a[1..]);
      assert [a[0]] + (a[1..] + b) == a + b && [a[0]] + a[1..] == a;
    }
  }

  /** A name without a backslash is one piece; an empty part or a dot is none. */
  lemma {:induction false} PieceOf(part: string)
    requires '\\' !in part
    ensures Pieces([part]) == if part == "" || part == "." then [] else [part]
  {
    FlatOfHead(part, []);
    SplitWhole(part, '\\');
    assert [part] + [] == [part] && Flat([part]) == [part];
    assert Kept([part], 1) == Kept([part], 0) + (if part == "" || part == "." then [] else [part]);
  }

  lemma {:induction false} PiecesOfNames(names: seq<string>)
    requires AreNames(names) && forall i :: 0 <= i < |names| ==> '\\' !in names[i]
    ensures Pieces(names) == names
    decreases |names|
  {
    if names != [] {
      PiecesOfNames(names[1..]);
      PieceOf(names[0]);
      PiecesOfHead(names[0], names[1..]);
      assert [names[0]] + names[1..] == names;
    }
  }

  /** What is dropped between slashes has no pieces. */
  lemma {:induction false} PiecesOfKept(parts: seq<string>, n: nat)
    requires n <= |parts|
    ensures Pieces(Kept(parts, n)) == Pieces(parts[..n])
  {
    if n > 0 {
      var before, part := parts[..n - 1], parts[n - 1];
      PiecesOfKept(parts, n - 1);
      assert parts[..n] == before + [part];
      PiecesAppend(before, [part]);
      if part == "" || part == "." {
        PieceOf(part);
        assert Kept(parts, n) == Kept(parts, n - 1);
      } else {
        PiecesAppend(Kept(parts, n - 1), [part]);
      }
    }
  }

  /** The Windows reading of an absolute POSIX path that is not a share: no drive, a
      root, and the components split again. */
  lemma {:induction false} PosixReadAsWindows(s: string)
    requires Drive(s) == "" && Parse(s).absolute
    ensures Read(s, true) == Reading("\\", false, Pieces(Parse(s).parts))
  {
    var p, parts := Backslashed(s), Split(s, '/');
    assert p[0] == '\\' && CutRoot(p) == Cut("", true, p[1..]);
    LeadingSeparator(p);
    assert Pieces(parts) == WindowsTail(s) by {
      SplitBoth(s);
    }
    PiecesOfKept(parts, |parts|);
    assert parts[..|parts|] == parts;
  }

  lemma {:induction false} LeadingSeparator(p: string)
    requires p != "" && p[0] == '\\'
    ensures Kept(Split(p, '\\'), |Split(p, '\\')|) == Kept(Split(p[1..], '\\'), |Split(p[1..], '\\')|)
  {
    KeptOfAppend([""], Split(p[1..], '\\'));
    assert Kept([""], 1) == [];
  }

  // ----- Which components survive being read again -----

  /** Only an empty text loses all its characters with its case. */
  ghost predicate FoldsCase(fold: string -> string) {
    forall s :: fold(s) == "" <==> s == ""
  }

  /** All characters of the first `n` parts. */
  function Chars(parts: seq<string>, n: nat): nat
    requires n <= |parts|
  {
    if n == 0 then 0 else Chars(parts, n - 1) + |parts[n - 1]|
  }

  lemma {:induction false} CharsAppend(a: seq<string>, b: seq<string>, n: nat)
    requires n <= |b|
    ensures Chars(a + b, |a| + n) == Chars(a, |a|) + Chars(b, n)
  {
    if n == 0 {
      CharsPrefix(a, b, |a|);
    } else {
      CharsAppend(a, b, n - 1);
    }
  }

  lemma {:induction false} CharsPrefix(a: seq<string>, b: seq<string>, n: nat)
    requires n <= |a|
    ensures Chars(a + b, n) == Chars(a, n)
  {
    if n > 0 {
      CharsPrefix(a, b, n - 1);
    }
  }

  function JoinedChars(joined: Joined): nat {
    |joined.drive| + Chars(joined.parts, |joined.parts|)
  }

  lemma {:induction false} JoinedGrows(joined: Joined, part: string)
    ensures JoinedChars(joined.(parts := joined.parts + [part])) == JoinedChars(joined) + |part|
  {
    CharsAppend(joined.parts, [part], 1);
    assert Chars([part], 1) == Chars([part], 0) + |part|;
  }

  lemma {:induction false} CharsKept(parts: seq<string>, n: nat)
    requires n <= |parts|
    ensures Chars(Kept(parts, n), |Kept(parts, n)|) <= Chars(parts, n)
  {
    if n > 0 {
      CharsKept(parts, n - 1);
      if parts[n - 1] == "" || parts[n - 1] == "." {
        assert Kept(parts, n) == Kept(parts, n - 1);
      } else {
        JoinedGrows(Joined("", Kept(parts, n - 1)), parts[n - 1]);
      }
    }
  }

  lemma {:induction false} RejoinDrive(tail: seq<string>, n: nat, fold: string -> string)
    requires n <= |tail|
    ensures Rejoin(tail, n, fold).drive == "" || |Rejoin(tail, n, fold).drive| == 2
  {
    if n > 0 {
      RejoinDrive(tail, n - 1, fold);
    }
  }

  /** A component with a drive that is not the first makes the join lose characters. */
  lemma {:induction false} RejoinLoses(tail: seq<string>, n: nat, fold: string -> string)
    requires n <= |tail| && FoldsCase(fold) && forall i :: 0 <= i < n ==> tail[i] != ""
    ensures n > 0 ==> JoinedChars(Rejoin(tail, n, fold)) > 0
    ensures JoinedChars(Rejoin(tail, n, fold)) <= Chars(tail, n)
    ensures (exists i :: 0 < i < n && HasDrive(tail[i])) ==> JoinedChars(Rejoin(tail, n, fold)) < Chars(tail, n)
  {
    if n > 0 {
      RejoinLoses(tail, n - 1, fold);
      RejoinDrive(tail, n - 1, fold);
      DriveLoses(Rejoin(tail, n - 1, fold), tail[n - 1], fold);
      if !HasDrive(tail[n - 1]) {
        JoinedGrows(Rejoin(tail, n - 1, fold), tail[n - 1]);
      }
    }
  }

  /** One component with a drive: it keeps its own characters, and of those before it
      all but a drive or none. */
  lemma {:induction false} DriveLoses(before: Joined, part: string, fold: string -> string)
    requires FoldsCase(fold) && (before.drive == "" || |before.drive| == 2)
    ensures HasDrive(part) ==>
              var after := if fold(part[..2]) == fold(before.drive) then Joined(part[..2], before.parts + [part[2..]])
                           else Joined(part[..2], [part[2..]]);
              && |part| <= JoinedChars(after) <= JoinedChars(before) + |part|
              && (JoinedChars(before) > 0 ==> JoinedChars(after) < JoinedChars(before) + |part|)
  {
    if HasDrive(part) {
      JoinedGrows(Joined(part[..2], before.parts), part[2..]);
      JoinedGrows(Joined(part[..2], []), part[2..]);
      assert [] + [part[2..]] == [part[2..]];
    }
  }

  /** Components that survive: no backslash, and no drive except a first component that
      is nothing else. */
  predicate Survive(relative: seq<string>) {
    forall i :: 0 <= i < |relative| ==>
      '\\' !in relative[i] && (HasDrive(relative[i]) ==> i == 0 && |relative[i]| == 2)
  }

  /** A drive that is only the first component. */
  lemma {:induction false} FirstDriveStays(tail: seq<string>, n: nat, fold: string -> string)
    requires 0 < n <= |tail| && HasDrive(tail[0]) && forall i :: 0 < i < n ==> !HasDrive(tail[i])
    ensures Rejoin(tail, n, fold) == Joined(tail[0][..2], [tail[0][2..]] + tail[1..n])
  {
    if n == 1 {
      assert Rejoin(tail, 0, fold) == Joined("", []);
      assert [] + [tail[0][2..]] == [tail[0][2..]] && [tail[0][2..]] + tail[1..1] == [tail[0][2..]];
    } else {
      FirstDriveStays(tail, n - 1, fold);
      assert [tail[0][2..]] + tail[1..n - 1] + [tail[n - 1]] == [tail[0][2..]] + tail[1..n];
    }
  }

  lemma {:induction false} RereadFirstDrive(relative: seq<string>, fold: string -> string)
    requires AreNames(relative) && relative != [] && HasDrive(relative[0])
    requires forall i :: 0 < i < |relative| ==> !HasDrive(relative[i])
    ensures Reread(relative, fold) == relative <==> |relative[0]| == 2
  {
    var first, others := relative[0], relative[1..];
    FirstDriveStays(relative, |relative|, fold);
    assert relative[1..|relative|] == others;
    KeptOfAppend([first[2..]], others);
    NamesAreKept(others, |others|);
    assert others[..|others|] == others && first[..2] != "";
    if |first| == 2 {
      assert Kept([first[2..]], 1) == [] by {
        assert first[2..] == "" && Kept([""], 1) == Kept([""], 0) + [];
      }
      assert first[..2] == first && [first] + others == relative;
    } else {
      assert Reread(relative, fold)[0] == first[..2];
      assert |first[..2]| < |first|;
    }
  }

  lemma {:induction false} LaterDriveLoses(relative: seq<string>, fold: string -> string, i: nat)
    requires AreNames(relative) && FoldsCase(fold) && 0 < i < |relative| && HasDrive(relative[i])
    ensures Chars(Reread(relative, fold), |Reread(relative, fold)|) < Chars(relative, |relative|)
  {
    var joined := Rejoin(relative, |relative|, fold);
    var kept := Kept(joined.parts, |joined.parts|);
    RejoinLoses(relative, |relative|, fold);
    CharsKept(joined.parts, |joined.parts|);
    if joined.drive != "" {
      CharsAppend([joined.drive], kept, |kept|);
      assert Chars([joined.drive], 1) == Chars([joined.drive], 0) + |joined.drive|;
    } else {
      assert [] + kept == kept;
    }
  }

  lemma {:induction false} RereadWithoutBackslash(relative: seq<string>, fold: string -> string)
    requires AreNames(relative) && FoldsCase(fold) && forall i :: 0 <= i < |relative| ==> '\\' !in relative[i]
    ensures Reread(relative, fold) == relative <==> Survive(relative)
  {
    if i :| 0 < i < |relative| && HasDrive(relative[i]) {
      LaterDriveLoses(relative, fold, i);
    } else if relative != [] && HasDrive(relative[0]) {
      RereadFirstDrive(relative, fold);
    } else {
      RereadNames(relative, fold);
    }
  }

  lemma {:induction false} RereadStaysIff(relative: seq<string>, fold: string -> string)
    requires AreNames(relative) && FoldsCase(fold)
    ensures Reread(Pieces(relative), fold) == relative <==> Survive(relative)
  {
    if i :| 0 <= i < |relative| && '\\' in relative[i] {
      PiecesHaveNone(relative);
      RereadAvoids(Pieces(relative), fold, '\\');
    } else {
      PiecesOfNames(relative);
      RereadWithoutBackslash(relative, fold);
    }
  }

  lemma {:induction false} PiecesHaveNone(parts: seq<string>)
    ensures forall i :: 0 <= i < |Pieces(parts)| ==> '\\' !in Pieces(parts)[i]
    decreases |parts|
  {
    if parts != [] {
      PiecesHaveNone(parts[1..]);
      assert [parts[0]] + parts[1..] == parts;
      PiecesOfHead(parts[0], parts[1..]);
      FlatOfHead(parts[0], []);
      assert [parts[0]] + [] == [parts[0]] && Flat([parts[0]]) == Split(parts[0], '\\');
      var pieces := Split(parts[0], '\\');
      PartsHaveNoSeparator(parts[0], '\\');
      KeptAreComponents(pieces, |pieces|);
    }
  }

  /** An absolute POSIX reference that was written below its Logbook, none of the two a
      share, relocates to its own place exactly when neither text has a backslash, or the
      part below the Logbook survives being read as a Windows path. */
  lemma {:induction false} PosixReferenceRelocatesIff(moved: seq<string>, value: string, recordedRoot: string,
                                                      relative: seq<string>, fold: string -> string)
    requires AreNames(moved) && AreNames(relative) && relative != [] && FoldsCase(fold)
    requires Drive(value) == "" && Drive(recordedRoot) == "" && Parse(recordedRoot).absolute
    requires Parse(value) == Path(true, Parse(recordedRoot).parts + relative)
    ensures ResolveIndexReference(moved, value, Some(recordedRoot), fold) == Ok(moved + relative) <==>
            ('\\' !in value && '\\' !in recordedRoot) || Survive(relative)
  {
    var reference, recorded := Parse(value), Parse(recordedRoot);
    HistoricalAcceptedIff(moved, value, recordedRoot, fold);
    NamesAreComponents(relative);
    if IsWindows(value, recordedRoot) {
      PosixReadAsWindows(value);
      PosixReadAsWindows(recordedRoot);
      PiecesAppend(recorded.parts, relative);
      RereadStaysIff(relative, fold);
      assert Pieces(reference.parts)[|Pieces(recorded.parts)|..] == Pieces(relative);
      assert StandsFor(value, recordedRoot, fold) == Reread(Pieces(relative), fold);
      assert moved + StandsFor(value, recordedRoot, fold) == moved + relative ==>
          (moved + StandsFor(value, recordedRoot, fold))[|moved|..] == relative;
    } else {
      assert reference.parts[|recorded.parts|..] == relative;
      assert StandsFor(value, recordedRoot, fold) == relative;
    }
  }

  // ---------- What goes wrong, and an input for each ----------

  lemma {:induction false} NothingToReplace(s: string)
    requires '/' !in s
    ensures Backslashed(s) == s
    decreases |s|
  {
    if s != "" {
      NothingToReplace(s[1..]);
      assert [s[0]] + s[1..] == s;
    }
  }

  lemma {:induction false} ParseAbsolute(names: seq<string>)
    requires names != [] && AreNames(names)
    ensures Parse("/" + Join(names, '/')) == Path(true, names)
  {
    var last := Join(names, '/');
    assert "" + ['/'] + last == "/" + last;
    SplitAppend("", last, '/');
    SplitJoin(names, '/');
    NamesAreKept(names, |names|);
    assert names[..|names|] == names;
    KeptOfAppend([""], names);
    assert Kept([""], 1) == Kept([""], 0) + [];
  }

  lemma {:induction false} JoinOfTwo(a: string, b: string, sep: char)
    ensures Join([a, b], sep) == a + [sep] + b
  {
    assert [a, b][1..] == [b];
  }

  lemma {:induction false} JoinOfThree(a: string, b: string, c: string, sep: char)
    ensures Join([a, b, c], sep) == a + [sep] + (b + [sep] + c)
  {
    assert [a, b, c][1..] == [b, c];
    JoinOfTwo(b, c, sep);
  }

  /** Both readings of an absolute POSIX path. */
  lemma {:induction false} AbsoluteReadings(names: seq<string>, s: string)
    requires names != [] && AreNames(names) && names[0][0] != '\\' && s == "/" + Join(names, '/')
    ensures Drive(s) == "" && Parse(s) == Path(true, names)
    ensures Read(s, true) == Reading("\\", false, Pieces(names))
  {
    ParseAbsolute(names);
    assert Join(names, '/')[0] == names[0][0];
    BackslashedAt(s, 0);
    BackslashedAt(s, 1);
    assert IsName(names[0]);
    PosixReadAsWindows(s);
  }

  lemma {:induction false} PiecesOfFile(directories: seq<string>, file: string, first: string, second: string)
    requires AreNames(directories) && forall i :: 0 <= i < |directories| ==> '\\' !in directories[i]
    requires IsName(first) && IsName(second) && '\\' !in first && '\\' !in second && file == first + "\\" + second
    ensures Pieces(directories + [file]) == directories + [first, second]
  {
    PiecesAppend(directories, [file]);
    PiecesOfNames(directories);
    JoinOfTwo(first, second, '\\');
    SplitJoin([first, second], '\\');
    FlatOfHead(file, []);
    assert [file] + [] == [file] && Flat([file]) == [first, second];
    NamesAreKept([first, second], 2);
    assert [first, second][..2] == [first, second];
  }

  lemma {:induction false} SplitBelow(moved: seq<string>, value: string, recordedRoot: string, tail: seq<string>,
                                      relative: seq<string>, fold: string -> string)
    requires AreNames(moved) && '\\' in value
    requires Read(recordedRoot, true) == Reading("\\", false, tail)
    requires Read(value, true) == Reading("\\", false, tail + relative)
    requires AreNames(relative) && relative != [] && forall i :: 0 <= i < |relative| ==> !HasDrive(relative[i])
    ensures ResolveIndexReference(moved, value, Some(recordedRoot), fold) == Ok(moved + relative)
  {
    assert (tail + relative)[|tail|..] == relative;
    RereadNames(relative, fold);
    NamesAreComponents(relative);
    assert StandsFor(value, recordedRoot, fold) == relative;
    HistoricalAcceptedIff(moved, value, recordedRoot, fold);
  }

  lemma {:induction false} SplitInTwo(moved: seq<string>, value: string, recordedRoot: string, tail: seq<string>,
                                      first: string, second: string, fold: string -> string)
    requires AreNames(moved) && '\\' in value
    requires Read(recordedRoot, true) == Reading("\\", false, tail)
    requires Read(value, true) == Reading("\\", false, tail + [first, second])
    requires IsName(first) && IsName(second) && !HasDrive(first) && !HasDrive(second)
    ensures ResolveIndexReference(moved, value, Some(recordedRoot), fold) == Ok(moved + [first, second])
  {
    var relative := [first, second];
    assert AreNames(relative);
    SplitBelow(moved, value, recordedRoot, tail, relative, fold);
  }

  /** Any file whose name is two names and a backslash is looked for at another place
      than where it was. */
  lemma {:induction false} BackslashLeadsElsewhere(moved: seq<string>, value: string, recordedRoot: string,
        directories: seq<string>, first: string, second: string, fold: string -> string)
    requires AreNames(moved) && AreNames(directories) && directories != []
    requires forall i :: 0 <= i < |directories| ==> '\\' !in directories[i]
    requires IsName(first) && IsName(second) && '\\' !in first && '\\' !in second
    requires !HasDrive(first) && !HasDrive(second)
    requires recordedRoot == "/" + Join(directories, '/')
    requires value == "/" + Join(directories + [first + "\\" + second], '/')
    ensures ResolveIndexReference(moved, value, Some(recordedRoot), fold) == Ok(moved + [first, second])
    ensures Parse(value) == Path(true, Parse(recordedRoot).parts + [first + "\\" + second])
  {
    FileReadings(directories, first, second, value);
    DirectoryReadings(directories, recordedRoot);
    SplitInTwo(moved, value, recordedRoot, directories, first, second, fold);
  }

  /** Both readings of a path without backslashes. */
  lemma {:induction false} DirectoryReadings(names: seq<string>, s: string)
    requires AreNames(names) && names != [] && forall i :: 0 <= i < |names| ==> '\\' !in names[i]
    requires s == "/" + Join(names, '/')
    ensures Parse(s) == Path(true, names) && Read(s, true) == Reading("\\", false, names)
  {
    assert IsName(names[0]);
    AbsoluteReadings(names, s);
    PiecesOfNames(names);
  }

  /** Both readings of a path to a file whose name has a backslash. */
  lemma {:induction false} FileReadings(directories: seq<string>, first: string, second: string, value: string)
    requires AreNames(directories) && directories != []
    requires forall i :: 0 <= i < |directories| ==> '\\' !in directories[i]
    requires IsName(first) && IsName(second) && '\\' !in first && '\\' !in second
    requires value == "/" + Join(directories + [first + "\\" + second], '/')
    ensures '\\' in value && Drive(value) == ""
    ensures Parse(value) == Path(true, directories + [first + "\\" + second])
    ensures Read(value, true) == Reading("\\", false, directories + [first, second])
  {
    var file := first + "\\" + second;
    NameWithBackslash(first, second);
    assert IsName(directories[0]) && (directories + [file])[0] == directories[0];
    AbsoluteReadings(directories + [file], value);
    PiecesOfFile(directories, file, first, second);
    BackslashStays(directories, file, value);
  }

  lemma {:induction false} NameWithBackslash(first: string, second: string)
    requires IsName(first) && IsName(second)
    ensures IsName(first + "\\" + second) && '\\' in first + "\\" + second
  {
    var file := first + "\\" + second;
    assert file[|first|] == '\\' && |file| > 2;
  }

  lemma {:induction false} BackslashStays(directories: seq<string>, file: string, value: string)
    requires '\\' in file && value == "/" + Join(directories + [file], '/')
    ensures '\\' in value
  {
    JoinEndsWith(directories, file);
    var last := Join(directories + [file], '/');
    var i :| 0 <= i < |file| && file[i] == '\\';
    assert last[|last| - |file|..][i] == last[|last| - |file| + i];
    assert value[1 + |last| - |file| + i] == '\\';
  }

  lemma {:induction false} JoinEndsWith(directories: seq<string>, file: string)
    ensures var last := Join(directories + [file], '/');
            |last| >= |file| && last[|last| - |file|..] == file
    decreases |directories|
  {
    if directories == [] {
      assert [] + [file] == [file];
    } else {
      JoinEndsWith(directories[1..], file);
      assert (directories + [file])[1..] == directories[1..] + [file];
    }
  }

  lemma {:induction false} OutsideStands(moved: seq<string>, value: string, recordedRoot: string, tail: seq<string>,
                                         name: string, fold: string -> string)
    requires AreNames(moved) && AreNames(tail) && tail != [] && '\\' in value
    requires Read(recordedRoot, true) == Reading("\\", false, [name]) && fold(tail[0]) != fold(name)
    requires Read(value, true) == Reading("\\", false, tail)
    ensures ResolveIndexReference(moved, value, Some(recordedRoot), fold) == Ok(moved + (["\\"] + tail))
  {
    assert IsName("\\");
    assert AreNames(["\\"] + tail);
    NamesAreComponents(["\\"] + tail);
    assert StandsFor(value, recordedRoot, fold) == ["\\"] + tail;
    HistoricalAcceptedIff(moved, value, recordedRoot, fold);
  }

  /** An absolute reference outside its recorded Logbook, which is refused when it is read
      as a POSIX path, is accepted when a backslash makes it a Windows path without a
      drive; it leads below the Logbook all the same. */
  lemma {:induction false} OutsideReferenceIsAccepted(moved: seq<string>, value: string, recordedRoot: string,
        outside: string, first: string, second: string, name: string, fold: string -> string)
    requires AreNames(moved) && IsName(outside) && IsName(first) && IsName(second) && IsName(name)
    requires fold(outside) != fold(name)
    requires '\\' !in outside && '\\' !in first && '\\' !in second && '\\' !in name
    requires recordedRoot == "/" + name && value == "/" + Join([outside] + [first + "\\" + second], '/')
    ensures Parse(value).absolute && !(Parse(recordedRoot).parts <= Parse(value).parts)
    ensures ResolveIndexReference(moved, value, Some(recordedRoot), fold) ==
            Ok(moved + (["\\"] + ([outside] + [first, second])))
  {
    var names, tail := [name], [outside] + [first, second];
    assert AreNames(names) && AreNames(tail);
    FileReadings([outside], first, second, value);
    DirectoryReadings(names, recordedRoot);
    OutsideStands(moved, value, recordedRoot, tail, name, fold);
  }

  /** A `..` between backslashes is one, and is refused. */
  lemma {:induction false} DotsBetweenBackslashesAreRefused(moved: seq<string>, value: string, recordedRoot: string,
        parts: seq<string>, names: seq<string>, fold: string -> string)
    requires AreNames(moved) && FoldsCase(fold) && AreNames(names) && names != [] && names[0][0] != '\\'
    requires AreComponents(parts) && ".." in parts && |parts| > 1
    requires forall i :: 0 <= i < |parts| ==> '\\' !in parts[i] && !HasDrive(parts[i])
    requires recordedRoot == "/" + Join(names, '/') && value == Join(parts, '\\')
    ensures ResolveIndexReference(moved, value, Some(recordedRoot), fold).Err?
  {
    RelativeReading(parts, value);
    AbsoluteReadings(names, recordedRoot);
    assert !SameName("", "\\", true, fold);
    assert StandsFor(value, recordedRoot, fold) == parts;
    HistoricalAcceptedIff(moved, value, recordedRoot, fold);
  }

  /** Components joined by backslashes are read as they are. */
  lemma {:induction false} RelativeReading(parts: seq<string>, value: string)
    requires AreComponents(parts) && |parts| > 1 && value == Join(parts, '\\')
    requires forall i :: 0 <= i < |parts| ==> '\\' !in parts[i] && !HasDrive(parts[i])
    ensures '\\' in value && Read(value, true) == Reading("", false, parts)
  {
    JoinAvoids(parts, '\\', '/');
    NothingToReplace(value);
    assert IsComponent(parts[0]) && value == parts[0] + ['\\'] + Join(parts[1..], '\\');
    assert value[|parts[0]|] == '\\' && value[0] == parts[0][0];
    assert |parts[0]| >= 2 ==> value[1] == parts[0][1];
    assert CutRoot(value) == Cut("", false, value);
    SplitJoin(parts, '\\');
    ComponentsAreKept(parts, |parts|);
    assert parts[..|parts|] == parts;
  }

  lemma {:induction false} ComponentsAreKept(parts: seq<string>, n: nat)
    requires n <= |parts| && AreComponents(parts)
    ensures Kept(parts, n) == parts[..n]
  {
    if n > 0 {
      ComponentsAreKept(parts, n - 1);
      assert IsComponent(parts[n - 1]) && parts[..n] == parts[..n - 1] + [parts[n - 1]];
    }
  }

  // ----- The inputs -----

  /** A letter drive with a root, and one component. */
  lemma {:induction false} LetterReading(s: string, name: string)
    requires |s| > 3 && s[1] == ':' && s[2] == '\\' && s[0] != '\\' && '/' !in s
    requires name == s[3..] && IsName(name) && '\\' !in name
    ensures CutRoot(Backslashed(s)) == Cut(s[..2], true, name)
    ensures Read(s, true) == Reading(s[..2] + "\\", true, [name])
  {
    NothingToReplace(s);
    SplitWhole(name, '\\');
    NamesAreKept([name], 1);
    assert [name][..1] == [name] && s[..2] != "";
  }

  /** Recorded as `C:\y\a.json` below `C:\y`: the file is found. */
  lemma {:induction false} WindowsInput(moved: seq<string>, value: string, recordedRoot: string,
                                        fold: string -> string)
    requires AreNames(moved) && value == "C:\\y\\a.json" && recordedRoot == "C:\\y"
    ensures ResolveIndexReference(moved, value, Some(recordedRoot), fold) == Ok(moved + ["a.json"])
  {
    var name, file := "y", "a.json";
    NothingToReplace(value);
    NothingToReplace(recordedRoot);
    LetterReading(recordedRoot, name);
    assert IsName(file) && file[1] == '.' && Join([file], '\\') == file;
    assert value == recordedRoot + "\\" + file;
    WindowsReferenceRelocates(moved, value, recordedRoot, recordedRoot, [file], fold);
  }

  /** Recorded as `/x/log/a\b` below `/x/log`: the file `a\b` is looked for as `a/b`. */
  lemma {:induction false} BackslashInput(moved: seq<string>, value: string, recordedRoot: string,
                                          fold: string -> string)
    requires AreNames(moved) && value == "/x/log/a\\b" && recordedRoot == "/x/log"
    ensures ResolveIndexReference(moved, value, Some(recordedRoot), fold) == Ok(moved + ["a", "b"])
  {
    var directories, file := ["x", "log"], "a" + "\\" + "b";
    JoinOfTwo("x", "log", '/');
    JoinOfThree("x", "log", file, '/');
    assert directories + [file] == ["x", "log", file];
    BackslashLeadsElsewhere(moved, value, recordedRoot, directories, "a", "b", fold);
  }

  /** Recorded as `/etc/a\b` for a Logbook at `/x`. */
  lemma {:induction false} OutsideInput(moved: seq<string>, value: string, recordedRoot: string,
                                        fold: string -> string)
    requires AreNames(moved) && value == "/etc/a\\b" && recordedRoot == "/x" && fold("etc") != fold("x")
    ensures ResolveIndexReference(moved, value, Some(recordedRoot), fold).Ok?
  {
    var file := "a" + "\\" + "b";
    JoinOfTwo("etc", file, '/');
    assert ["etc"] + [file] == ["etc", file];
    OutsideReferenceIsAccepted(moved, value, recordedRoot, "etc", "a", "b", "x", fold);
  }

  /** Recorded as `a\..\b` for a Logbook at `/x`. */
  lemma {:induction false} DotsInput(moved: seq<string>, value: string, recordedRoot: string, fold: string -> string)
    requires AreNames(moved) && FoldsCase(fold) && value == "a\\..\\b" && recordedRoot == "/x"
    ensures ResolveIndexReference(moved, value, Some(recordedRoot), fold).Err?
  {
    JoinOfThree("a", "..", "b", '\\');
    var parts := ["a", "..", "b"];
    assert parts[1] == "..";
    DotsBetweenBackslashesAreRefused(moved, value, recordedRoot, parts, ["x"], fold);
  }
}
