/** The regular expressions of the shared contract: sequences and alternatives of
    repeated character classes, matched against a whole text. */
module Patterns {
  import opened Prelude

  /** A character class, as ranges. */
  type Class = seq<(char, char)>

  /** `most` is None for a repetition without a bound. */
  datatype Pattern =
    | Repeat(chars: Class, least: nat, most: Option<nat>)
    | Then(first: Pattern, second: Pattern)
    | Or(left: Pattern, right: Pattern)

  predicate InClass(c: char, chars: Class) {
    exists k :: 0 <= k < |chars| && chars[k].0 <= c <= chars[k].1
  }

  /** Whether a pattern matches the whole of `s`, with whatever cuts. */
  predicate Matches(p: Pattern, s: string) {
    match p
    case Repeat(chars, least, most) =>
      && least <= |s| && (most.Some? ==> |s| <= most.value)
      && forall i :: 0 <= i < |s| ==> InClass(s[i], chars)
    case Then(first, second) => exists i :: 0 <= i <= |s| && Matches(first, s[..i]) && Matches(second, s[i..])
    case Or(left, right) => Matches(left, s) || Matches(right, s)
  }

  function One(chars: Class): Pattern {
    Repeat(chars, 1, Some(1))
  }

  /** A one-character pattern followed by another cuts off the first character. */
  lemma {:induction false} FirstCharacter(chars: Class, second: Pattern, s: string)
    ensures Matches(Then(One(chars), second), s) <==> s != "" && InClass(s[0], chars) && Matches(second, s[1..])
  {
    if Matches(Then(One(chars), second), s) {
      var i :| 0 <= i <= |s| && Matches(One(chars), s[..i]) && Matches(second, s[i..]);
      assert i == 1 && s[..1][0] == s[0];
    } else if s != "" && InClass(s[0], chars) {
      assert |s[..1]| == 1 && s[..1][0] == s[0];
      assert Matches(One(chars), s[..1]);
    }
  }
}
