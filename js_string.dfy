/**
 * The parts of JavaScript's `String.prototype.replace` that the scripts rely on:
 * a one-character string pattern (only the first occurrence is replaced, and the
 * replacement string is expanded by the ECMAScript GetSubstitution rules), and a
 * global regular expression that matches a single character out of a class.
 */
module JsString {
  import opened Wrappers

  /** `s.indexOf(c)` for a one-character search string; None stands for -1. */
  function IndexOf(s: string, c: char): (r: Option<nat>)
    ensures r.None? <==> c !in s
    ensures r.Some? ==> r.value < |s| && s[r.value] == c && c !in s[..r.value]
  {
    if |s| == 0 then None
    else if s[0] == c then Some(0)
    else
      match IndexOf(s[1..], c)
      case None => None
      case Some(i) =>
        assert s[..i + 1] == [s[0]] + s[1..][..i];
        Some(i + 1)
  }

  /** The first occurrence of `c` in `s` is the one `IndexOf` finds. */
  lemma FirstOccurrenceIsIndexOf(s: string, c: char, i: nat)
    requires i < |s| && s[i] == c && c !in s[..i]
    ensures IndexOf(s, c) == Some(i)
  {
  }

  /**
   * GetSubstitution for a match without capture groups: `$$` is a dollar sign,
   * `$&` the matched text, `` $` `` the text before the match, `$'` the text after
   * it; any other `$` (including `$1` and `$<`, which have nothing to refer to) is
   * kept literally.
   */
  function Substitution(rep: string, matched: string, before: string, after: string): (r: string)
    ensures rep == "$$" ==> r == "$"
    ensures rep == "$&" ==> r == matched
    ensures rep == "$`" ==> r == before
    ensures rep == "$'" ==> r == after
    ensures rep == "$1" ==> r == "$1"
    ensures rep == "$" ==> r == "$"
    decreases |rep|
  {
    if |rep| == 0 then ""
    else if rep[0] == '$' && |rep| >= 2 && rep[1] == '$' then
      "$" + Substitution(rep[2..], matched, before, after)
    else if rep[0] == '$' && |rep| >= 2 && rep[1] == '&' then
      matched + Substitution(rep[2..], matched, before, after)
    else if rep[0] == '$' && |rep| >= 2 && rep[1] == '`' then
      before + Substitution(rep[2..], matched, before, after)
    else if rep[0] == '$' && |rep| >= 2 && rep[1] == '\'' then
      after + Substitution(rep[2..], matched, before, after)
    else
      [rep[0]] + Substitution(rep[1..], matched, before, after)
  }

  /** A replacement string without `$` is inserted as it is. */
  lemma {:induction false} SubstitutionWithoutDollar(rep: string, matched: string, before: string, after: string)
    requires '$' !in rep
    ensures Substitution(rep, matched, before, after) == rep
    decreases |rep|
  {
    if |rep| > 0 {
      assert rep[0] != '$';
      assert '$' !in rep[1..];
      SubstitutionWithoutDollar(rep[1..], matched, before, after);
      assert rep == [rep[0]] + rep[1..];
    }
  }

  /** `s.replace(c, rep)` where the pattern is the one-character string `c`. */
  function ReplaceFirst(s: string, c: char, rep: string): (r: string)
    ensures c !in s ==> r == s
  {
    match IndexOf(s, c)
    case None => s
    case Some(i) => s[..i] + Substitution(rep, [c], s[..i], s[i + 1..]) + s[i + 1..]
  }

  /** With a `$`-free replacement, only the first occurrence is replaced, by `rep` itself. */
  lemma ReplaceFirstAt(s: string, c: char, rep: string, i: nat)
    requires i < |s| && s[i] == c && c !in s[..i]
    requires '$' !in rep
    ensures ReplaceFirst(s, c, rep) == s[..i] + rep + s[i + 1..]
  {
    FirstOccurrenceIsIndexOf(s, c, i);
    SubstitutionWithoutDollar(rep, [c], s[..i], s[i + 1..]);
  }

  /** The next position at or after `from` whose character is in `cls`. */
  function NextMatch(s: string, from: nat, cls: set<char>): (r: Option<nat>)
    requires from <= |s|
    ensures r.Some? ==> from <= r.value < |s| && s[r.value] in cls
    ensures r.Some? ==> forall k :: from <= k < r.value ==> s[k] !in cls
    ensures r.None? ==> forall k :: from <= k < |s| ==> s[k] !in cls
    decreases |s| - from
  {
    if from == |s| then None
    else if s[from] in cls then Some(from)
    else NextMatch(s, from + 1, cls)
  }

  /**
   * `s.replace(re, rep)` for a global regular expression matching exactly one
   * character of `cls`, scanning from `from`: each match is replaced and the scan
   * resumes after it. `rep` is used literally, as JavaScript does when it holds no `$`.
   */
  function GlobalReplaceFrom(s: string, from: nat, cls: set<char>, rep: string): (r: string)
    requires from <= |s|
    ensures forall x :: x in r ==> x in rep || (x in s[from..] && x !in cls)
    decreases |s| - from
  {
    match NextMatch(s, from, cls)
    case None => s[from..]
    case Some(i) => s[from..i] + rep + GlobalReplaceFrom(s, i + 1, cls, rep)
  }

  /** A one-character replacement maps the string character by character. */
  lemma {:induction false} GlobalReplaceCharwise(s: string, from: nat, cls: set<char>, rep: char)
    requires from <= |s|
    ensures |GlobalReplaceFrom(s, from, cls, [rep])| == |s| - from
    ensures forall k :: 0 <= k < |s| - from ==>
      GlobalReplaceFrom(s, from, cls, [rep])[k] == if s[from + k] in cls then rep else s[from + k]
    decreases |s| - from
  {
    match NextMatch(s, from, cls)
    case None =>
    case Some(i) =>
      GlobalReplaceCharwise(s, i + 1, cls, rep);
      var tail := GlobalReplaceFrom(s, i + 1, cls, [rep]);
      var r := GlobalReplaceFrom(s, from, cls, [rep]);
      assert r == s[from..i] + [rep] + tail;
      forall k | 0 <= k < |s| - from
        ensures r[k] == if s[from + k] in cls then rep else s[from + k]
      {
        if k < i - from {
          assert r[k] == s[from + k];
        } else if k == i - from {
          assert r[k] == rep;
        } else {
          assert r[k] == tail[k - (i - from) - 1];
        }
      }
  }
}
