/** Pure paths as pathlib reads them: POSIX paths, Windows paths, and one view of
    both for what is asked of either.  Lexical only. */
module PurePaths {
  import opened Prelude
  import opened Text

  // ---------- POSIX paths ----------

  /** A POSIX path as its components: no empty ones and no `.`, but perhaps `..`. */
  datatype Path = Path(absolute: bool, parts: seq<string>)

  function Kept(parts: seq<string>, n: nat): seq<string>
    requires n <= |parts|
  {
    if n == 0 then []
    else Kept(parts, n - 1) + (if parts[n - 1] == "" || parts[n - 1] == "." then [] else [parts[n - 1]])
  }

  function Parse(s: string): Path {
    var parts := Split(s, '/');
    Path(s != "" && s[0] == '/', Kept(parts, |parts|))
  }

  /** `as_posix` of a relative path. */
  function Posix(parts: seq<string>): string {
    if parts == [] then "." else Join(parts, '/')
  }

  /** A component that names an entry. */
  predicate IsName(part: string) {
    part != "" && part != "." && part != ".." && '/' !in part
  }

  predicate AreNames(parts: seq<string>) {
    forall i :: 0 <= i < |parts| ==> IsName(parts[i])
  }

  lemma {:induction false} KeptAreComponents(parts: seq<string>, n: nat)
    requires n <= |parts|
    ensures forall i :: 0 <= i < |Kept(parts, n)| ==>
                          Kept(parts, n)[i] != "" && Kept(parts, n)[i] != "." && Kept(parts, n)[i] in parts
  {
    if n > 0 {
      KeptAreComponents(parts, n - 1);
    }
  }

  lemma {:induction false} NamesAreKept(parts: seq<string>, n: nat)
    requires n <= |parts| && AreNames(parts)
    ensures Kept(parts, n) == parts[..n]
  {
    if n > 0 {
      NamesAreKept(parts, n - 1);
      assert parts[..n] == parts[..n - 1] + [parts[n - 1]];
    }
  }

  /** Components hold only characters of the text. */
  lemma {:induction false} ComponentsOfText(s: string, sep: char, c: char)
    requires c !in s
    ensures forall i :: 0 <= i < |Split(s, sep)| ==> c !in Split(s, sep)[i]
    decreases |s|
  {
    if s != "" {
      ComponentsOfText(s[1..], sep, c);
    }
  }

  lemma {:induction false} ParsedAreNames(value: string)
    requires ".." !in Parse(value).parts
    ensures AreNames(Parse(value).parts)
    ensures '\\' !in value ==> forall i :: 0 <= i < |Parse(value).parts| ==> '\\' !in Parse(value).parts[i]
  {
    var parts := Split(value, '/');
    KeptAreComponents(parts, |parts|);
    PartsHaveNoSeparator(value, '/');
    if '\\' !in value {
      ComponentsOfText(value, '/', '\\');
    }
    forall i | 0 <= i < |Parse(value).parts|
      ensures IsName(Parse(value).parts[i])
    {
      var k :| 0 <= k < |parts| && parts[k] == Parse(value).parts[i];
      assert Parse(value).parts[i] in Parse(value).parts;
    }
  }

  /** A joined path of names parses back to those names. */
  lemma {:induction false} JoinParses(parts: seq<string>)
    requires parts != [] && AreNames(parts)
    ensures Parse(Join(parts, '/')) == Path(false, parts)
  {
    var s := Join(parts, '/');
    SplitJoin(parts, '/');
    NamesAreKept(parts, |parts|);
    assert parts[..|parts|] == parts;
    assert IsName(parts[0]);
    assert s != "" && s[0] == parts[0][0];
  }

  // ---------- Windows paths ----------

  /** Both separators as the one that Windows prefers. */
  function Backslashed(s: string): (r: string)
    ensures |r| == |s|
  {
    if s == "" then "" else [if s[0] == '/' then '\\' else s[0]] + Backslashed(s[1..])
  }

  lemma {:induction false} BackslashedAt(s: string, i: nat)
    requires i < |s|
    ensures Backslashed(s)[i] == if s[i] == '/' then '\\' else s[i]
    decreases |s|
  {
    if i > 0 {
      BackslashedAt(s[1..], i - 1);
      assert Backslashed(s)[i] == Backslashed(s[1..])[i - 1] && s[1..][i - 1] == s[i];
    }
  }

  lemma {:induction false} NoSlashIsLeft(s: string)
    ensures '/' !in Backslashed(s)
    decreases |s|
  {
    if s != "" {
      NoSlashIsLeft(s[1..]);
    }
  }

  /** The first `c` from `start` on, or the end. */
  function Find(s: string, c: char, start: nat): (i: nat)
    requires start <= |s|
    ensures start <= i <= |s| && (i < |s| ==> s[i] == c)
    decreases |s| - start
  {
    if start == |s| || s[start] == c then start else Find(s, c, start + 1)
  }

  /** A path cut into its drive, whether a root follows, and the rest. */
  datatype Cut = Cut(drive: string, root: bool, rest: string)

  /** The long form of a share: two backslashes, `?`, and `UNC` between backslashes. */
  predicate IsUnc(p: string) {
    && |p| >= 8 && p[0] == '\\' && p[1] == '\\' && p[2] == '?' && p[3] == '\\' && p[7] == '\\'
    && (p[4] == 'U' || p[4] == 'u') && (p[5] == 'N' || p[5] == 'n') && (p[6] == 'C' || p[6] == 'c')
  }

  /** `ntpath.splitroot` of a text without forward slashes: a share or a device is a
      drive, and so is a letter before a colon. */
  function CutRoot(p: string): Cut {
    if |p| >= 2 && p[0] == '\\' && p[1] == '\\' then
      var first := Find(p, '\\', if IsUnc(p) then 8 else 2);
      if first == |p| then Cut(p, false, "")
      else
        var second := Find(p, '\\', first + 1);
        if second == |p| then Cut(p, false, "") else Cut(p[..second], true, p[second + 1..])
    else if |p| >= 1 && p[0] == '\\' then Cut("", true, p[1..])
    else if |p| >= 2 && p[1] == ':' then
      if |p| >= 3 && p[2] == '\\' then Cut(p[..2], true, p[3..]) else Cut(p[..2], false, p[2..])
    else Cut("", false, p)
  }

  function Drive(s: string): string {
    CutRoot(Backslashed(s)).drive
  }

  /** A share that nothing follows has a root all the same. */
  predicate IsShare(drive: string) {
    && drive != "" && drive[0] == '\\' && drive[|drive| - 1] != '\\'
    && var parts := Split(drive, '\\');
       (|parts| == 4 && parts[2] !in ["", "?", ".", "?."]) || |parts| == 6
  }

  function HasRoot(s: string): bool {
    CutRoot(Backslashed(s)).root || IsShare(Drive(s))
  }

  function WindowsTail(s: string): seq<string> {
    var parts := Split(CutRoot(Backslashed(s)).rest, '\\');
    Kept(parts, |parts|)
  }

  // ----- Components joined and read again -----

  /** A component that begins like a drive. */
  predicate HasDrive(part: string) {
    |part| >= 2 && part[1] == ':'
  }

  datatype Joined = Joined(drive: string, parts: seq<string>)

  /** The join of the first `n` components: one with a drive replaces what comes
      before it, unless that has the same drive up to case. */
  function Rejoin(tail: seq<string>, n: nat, fold: string -> string): Joined
    requires n <= |tail|
  {
    if n == 0 then Joined("", [])
    else
      var before, part := Rejoin(tail, n - 1, fold), tail[n - 1];
      if !HasDrive(part) then before.(parts := before.parts + [part])
      else if fold(part[..2]) == fold(before.drive) then Joined(part[..2], before.parts + [part[2..]])
      else Joined(part[..2], [part[2..]])
  }

  /** What `relative_to` makes of the components that are left: a new path is read from
      them. */
  function Reread(tail: seq<string>, fold: string -> string): seq<string> {
    var joined := Rejoin(tail, |tail|, fold);
    (if joined.drive == "" then [] else [joined.drive]) + Kept(joined.parts, |joined.parts|)
  }

  // ---------- Either flavour ----------

  /** The anchor is the drive with its root, and a component of its own. */
  datatype Reading = Reading(anchor: string, absolute: bool, tail: seq<string>)

  function Read(s: string, windows: bool): Reading {
    if windows then Reading(Drive(s) + (if HasRoot(s) then "\\" else ""), Drive(s) != "" && HasRoot(s), WindowsTail(s))
    else Reading(if Parse(s).absolute then "/" else "", Parse(s).absolute, Parse(s).parts)
  }

  function Components(reading: Reading): seq<string> {
    (if reading.anchor == "" then [] else [reading.anchor]) + reading.tail
  }

  /** Windows compares names up to case. */
  predicate SameName(a: string, b: string, windows: bool, fold: string -> string) {
    if windows then fold(a) == fold(b) else a == b
  }

  predicate IsRelativeTo(reading: Reading, other: Reading, windows: bool, fold: string -> string) {
    && SameName(reading.anchor, other.anchor, windows, fold)
    && |other.tail| <= |reading.tail|
    && forall i :: 0 <= i < |other.tail| ==> SameName(reading.tail[i], other.tail[i], windows, fold)
  }

  function RelativeTo(reading: Reading, other: Reading, windows: bool, fold: string -> string): seq<string>
    requires |other.tail| <= |reading.tail|
  {
    var rest := reading.tail[|other.tail|..];
    if windows then Reread(rest, fold) else rest
  }

  // ----- What components look like -----

  predicate IsComponent(part: string) {
    part != "" && part != "." && '/' !in part
  }

  predicate AreComponents(parts: seq<string>) {
    forall i :: 0 <= i < |parts| ==> IsComponent(parts[i])
  }

  lemma {:induction false} NamesAreComponents(parts: seq<string>)
    ensures AreNames(parts) <==> AreComponents(parts) && ".." !in parts
  {
    if AreComponents(parts) && ".." !in parts {
      forall i | 0 <= i < |parts|
        ensures IsName(parts[i])
      {
        assert parts[i] in parts;
      }
    }
  }

  /** Components of a text in which no forward slash is left. */
  lemma {:induction false} KeptOfText(s: string, sep: char)
    requires sep == '/' || '/' !in s
    ensures AreComponents(Kept(Split(s, sep), |Split(s, sep)|))
    ensures forall part :: part in Kept(Split(s, sep), |Split(s, sep)|) ==> sep !in part
  {
    var parts := Split(s, sep);
    KeptAreComponents(parts, |parts|);
    PartsHaveNoSeparator(s, sep);
    if '/' !in s {
      ComponentsOfText(s, sep, '/');
    }
    forall i | 0 <= i < |Kept(parts, |parts|)|
      ensures IsComponent(Kept(parts, |parts|)[i]) && sep !in Kept(parts, |parts|)[i]
    {
      var k :| 0 <= k < |parts| && parts[k] == Kept(parts, |parts|)[i];
    }
  }

  lemma {:induction false} ReadComponents(s: string, windows: bool)
    ensures AreComponents(Read(s, windows).tail)
    ensures windows || !Read(s, windows).absolute ==> AreComponents(Components(Read(s, windows)))
  {
    if windows {
      var p := Backslashed(s);
      NoSlashIsLeft(s);
      assert '/' !in CutRoot(p).rest && '/' !in CutRoot(p).drive;
      KeptOfText(CutRoot(p).rest, '\\');
      var anchor := Read(s, true).anchor;
      assert anchor != "" ==> '\\' in anchor || ':' in anchor;
    } else {
      KeptOfText(s, '/');
    }
  }

  lemma {:induction false} RejoinComponents(tail: seq<string>, n: nat, fold: string -> string, c: char)
    requires n <= |tail| && forall i :: 0 <= i < |tail| ==> c !in tail[i]
    ensures var joined := Rejoin(tail, n, fold);
            && c !in joined.drive && (joined.drive != "" ==> HasDrive(joined.drive))
            && forall i :: 0 <= i < |joined.parts| ==> c !in joined.parts[i]
  {
    if n > 0 {
      RejoinComponents(tail, n - 1, fold, c);
    }
  }

  lemma {:induction false} RereadAvoids(tail: seq<string>, fold: string -> string, c: char)
    requires forall i :: 0 <= i < |tail| ==> c !in tail[i]
    ensures forall i :: 0 <= i < |Reread(tail, fold)| ==>
              c !in Reread(tail, fold)[i] && Reread(tail, fold)[i] != "" && Reread(tail, fold)[i] != "."
  {
    var joined := Rejoin(tail, |tail|, fold);
    RejoinComponents(tail, |tail|, fold, c);
    KeptAreComponents(joined.parts, |joined.parts|);
    forall i | 0 <= i < |Kept(joined.parts, |joined.parts|)|
      ensures c !in Kept(joined.parts, |joined.parts|)[i]
    {
      var k :| 0 <= k < |joined.parts| && joined.parts[k] == Kept(joined.parts, |joined.parts|)[i];
    }
  }
}
