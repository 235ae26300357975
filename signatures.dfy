/** The worker's regular expressions are all of one shape: an alternation of plain ASCII
    words with the `i` flag (`/Chrome|Safari|.../i`). Without the `u` flag, ECMAScript
    case-insensitive matching canonicalises a character by upper-casing it and never maps a
    character at or above 128 onto an ASCII one (ECMA-262, section 22.2.2.7.3), so for these
    patterns it is exactly ASCII case-insensitive comparison. `test` asks whether some
    alternative occurs; `exec` returns the leftmost match, and at that position the first
    alternative in the list that matches there. */
module Signatures {
  import opened Wrappers

  /** ASCII lower case. */
  function Lower(c: char): char {
    if 'A' <= c <= 'Z' then (c as int + 32) as char else c
  }

  /** `p` occurs in `s` starting at `i`, ignoring ASCII case. */
  predicate MatchesAt(s: string, i: nat, p: string) {
    i + |p| <= |s| && forall k :: 0 <= k < |p| ==> Lower(s[i + k]) == Lower(p[k])
  }

  /** `p` occurs somewhere in `s`, ignoring ASCII case. */
  ghost predicate Occurs(s: string, p: string) {
    exists i: nat :: MatchesAt(s, i, p)
  }

  /** One of `alts` occurs somewhere in `s`. */
  ghost predicate OccursAny(s: string, alts: seq<string>) {
    exists j :: 0 <= j < |alts| && Occurs(s, alts[j])
  }

  /** What a regular-expression match of `alts` at `start`, with alternative `alt`, means:
      no alternative matches further left, and no earlier-listed alternative matches at
      `start`. */
  ghost predicate Leftmost(s: string, alts: seq<string>, start: nat, alt: nat) {
    && alt < |alts|
    && MatchesAt(s, start, alts[alt])
    && (forall p: nat, k :: p < start && 0 <= k < |alts| ==> !MatchesAt(s, p, alts[k]))
    && (forall k :: 0 <= k < alt ==> !MatchesAt(s, start, alts[k]))
  }

  /** `t` is the text of the leftmost match of `alts` in `s`, in the case it has in `s`. */
  ghost predicate LeftmostText(s: string, alts: seq<string>, t: string) {
    exists i: nat, j: nat :: Leftmost(s, alts, i, j) && t == s[i..i + |alts[j]|]
  }

  datatype Match = Match(start: nat, alt: nat)

  /** The first alternative from index `j` on that matches at `i`. */
  function FirstAltAt(s: string, i: nat, alts: seq<string>, j: nat): (r: Option<nat>)
    decreases |alts| - j
    ensures r.Some? ==> j <= r.value < |alts| && MatchesAt(s, i, alts[r.value])
    ensures r.Some? ==> forall k :: j <= k < r.value ==> !MatchesAt(s, i, alts[k])
    ensures r.None? ==> forall k :: j <= k < |alts| ==> !MatchesAt(s, i, alts[k])
  {
    if j >= |alts| then None
    else if MatchesAt(s, i, alts[j]) then Some(j)
    else FirstAltAt(s, i, alts, j + 1)
  }

  /** The regular-expression scan from position `i`: try every position left to right and,
      at each, every alternative in list order. */
  function ExecFrom(s: string, alts: seq<string>, i: nat): (r: Option<Match>)
    decreases |s| + 1 - i
    ensures r.Some? ==> i <= r.value.start && r.value.alt < |alts|
    ensures r.Some? ==> MatchesAt(s, r.value.start, alts[r.value.alt])
    ensures r.Some? ==> forall p: nat, k :: i <= p < r.value.start && 0 <= k < |alts| ==> !MatchesAt(s, p, alts[k])
    ensures r.Some? ==> forall k :: 0 <= k < r.value.alt ==> !MatchesAt(s, r.value.start, alts[k])
    ensures r.None? ==> forall p: nat, k :: i <= p && 0 <= k < |alts| ==> !MatchesAt(s, p, alts[k])
  {
    if i > |s| then None
    else
      match FirstAltAt(s, i, alts, 0)
      case Some(j) => Some(Match(i, j))
      case None => ExecFrom(s, alts, i + 1)
  }

  /** `re.exec(s)`: the leftmost match, if any. */
  function Exec(s: string, alts: seq<string>): (r: Option<Match>)
    ensures r.Some? ==> Leftmost(s, alts, r.value.start, r.value.alt)
    ensures r.None? <==> !OccursAny(s, alts)
  {
    var r := ExecFrom(s, alts, 0);
    if r.Some? then
      assert Occurs(s, alts[r.value.alt]);
      r
    else
      r
  }

  /** `re.test(s)`. */
  function Test(s: string, alts: seq<string>): (b: bool)
    ensures b <==> OccursAny(s, alts)
  {
    Exec(s, alts).Some?
  }

  /** `re.exec(s)?.[0]`: the text of the leftmost match, in the case it has in `s`. */
  function MatchedText(s: string, alts: seq<string>): (r: Option<string>)
    ensures r.None? <==> !OccursAny(s, alts)
    ensures r.Some? ==> LeftmostText(s, alts, r.value)
  {
    match Exec(s, alts)
    case None => None
    case Some(m) => Some(s[m.start..m.start + |alts[m.alt]|])
  }

  /** There is only one leftmost match: the position and the alternative are determined. */
  lemma LeftmostUnique(s: string, alts: seq<string>, i1: nat, j1: nat, i2: nat, j2: nat)
    requires Leftmost(s, alts, i1, j1) && Leftmost(s, alts, i2, j2)
    ensures i1 == i2 && j1 == j2
  {
  }
}
