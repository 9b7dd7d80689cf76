/** The mime-type test of `checkConstraints`: each accepted entry is either a
    string, which matches when `indexOf` finds it inside the resolved mime
    type, or a regular expression, which matches when `match` does not return
    null. */
module Matching {

  /** An accepted-mime-type entry. A regular expression is abstracted by the
      predicate "finds a match somewhere in this string"; its own syntax and
      semantics are not modelled. */
  datatype Matcher = Text(s: string) | Pattern(hasMatchIn: string -> bool)

  /** needle occurs in hay starting at position i */
  predicate StartsAt(hay: string, needle: string, i: nat) {
    i + |needle| <= |hay| && hay[i..i + |needle|] == needle
  }

  /** needle is a substring of hay */
  ghost predicate Occurs(hay: string, needle: string) {
    exists i: nat :: StartsAt(hay, needle, i)
  }

  /** `hay.indexOf(needle, from)`: the first position at or after `from`
      where needle starts, or -1 when there is none. */
  function IndexFrom(hay: string, needle: string, from: nat): (r: int)
    decreases |hay| - from
    ensures r == -1 <==> forall i: nat :: from <= i ==> !StartsAt(hay, needle, i)
    ensures r != -1 ==> from <= r && StartsAt(hay, needle, r)
    ensures r != -1 ==> forall i: nat :: from <= i < r ==> !StartsAt(hay, needle, i)
  {
    if from + |needle| > |hay| then -1
    else if StartsAt(hay, needle, from) then from
    else IndexFrom(hay, needle, from + 1)
  }

  /** `hay.indexOf(needle)` */
  function IndexOf(hay: string, needle: string): (r: int)
    ensures r != -1 <==> Occurs(hay, needle)
    ensures r != -1 ==> 0 <= r && StartsAt(hay, needle, r)
    ensures r != -1 ==> forall i: nat :: i < r ==> !StartsAt(hay, needle, i)
  {
    IndexFrom(hay, needle, 0)
  }

  /** What a matcher is meant to accept: a substring, or a pattern match. */
  ghost predicate Accepts(m: Matcher, fileMime: string) {
    match m
    case Text(s) => Occurs(fileMime, s)
    case Pattern(p) => p(fileMime)
  }

  /** The callback given to `filter` in `checkConstraints`. */
  function Matches(m: Matcher, fileMime: string): (b: bool)
    ensures b <==> Accepts(m, fileMime)
  {
    match m
    case Text(s) => IndexOf(fileMime, s) != -1
    case Pattern(p) => p(fileMime)
  }

  /** `acceptedMimeTypes.filter(...)`: the entries that match, taken in list
      order. The contract promises that only accepting entries are kept and
      that every accepting entry is among them; `checkConstraints` reads no
      more of the result than whether it is empty. */
  function Filter(ms: seq<Matcher>, fileMime: string): (r: seq<Matcher>)
    ensures |r| <= |ms|
    ensures forall k :: 0 <= k < |r| ==> Accepts(r[k], fileMime)
    ensures |r| == 0 <==> forall i :: 0 <= i < |ms| ==> !Accepts(ms[i], fileMime)
    ensures forall i :: 0 <= i < |ms| && Accepts(ms[i], fileMime) ==> ms[i] in r
  {
    if ms == [] then []
    else (if Matches(ms[0], fileMime) then [ms[0]] else []) + Filter(ms[1..], fileMime)
  }

  /** An empty string entry is a substring of every mime type, so it accepts
      every file. */
  lemma EmptyTextAcceptsEverything(fileMime: string)
    ensures Matches(Text(""), fileMime)
  {
    assert StartsAt(fileMime, "", 0);
  }

  /** A string entry longer than the mime type can never match it. */
  lemma LongerTextNeverMatches(s: string, fileMime: string)
    requires |s| > |fileMime|
    ensures !Matches(Text(s), fileMime)
  {
    forall i: nat ensures !StartsAt(fileMime, s, i) { }
  }

  /** A non-empty string entry whose first character appears at no position
      where the entry would still fit cannot match the mime type. */
  lemma FirstCharAbsentNeverMatches(s: string, fileMime: string)
    requires |s| > 0
    requires forall i :: 0 <= i <= |fileMime| - |s| ==> fileMime[i] != s[0]
    ensures !Matches(Text(s), fileMime)
  {
    forall i: nat ensures !StartsAt(fileMime, s, i) {
      if i + |s| <= |fileMime| {
        assert fileMime[i..i + |s|][0] == fileMime[i];
      }
    }
  }
}
