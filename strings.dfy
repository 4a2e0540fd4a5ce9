/** The two functions of Go's `strings` package that the bot relies on:
    `strings.Contains` (group-chat trigger test) and `strings.TrimPrefix`
    (removal of the trigger before the text goes to the assistant). */
module Strings {

  /** `sub` occurs in `s` starting at position `i`. */
  predicate OccursAt(s: string, sub: string, i: int)
  {
    0 <= i && i + |sub| <= |s| && s[i..i + |sub|] == sub
  }

  /** `strings.HasPrefix(s, prefix)`. */
  predicate HasPrefix(s: string, prefix: string)
  {
    |prefix| <= |s| && s[..|prefix|] == prefix
  }

  /** `strings.Contains(s, sub)`; the empty string occurs everywhere. */
  predicate Contains(s: string, sub: string)
    ensures |sub| == 0 ==> Contains(s, sub)
    ensures Contains(s, sub) ==> |sub| <= |s|
  {
    // position 0 is a witness for the empty pattern
    assert |sub| == 0 ==> OccursAt(s, sub, 0);
    exists i | 0 <= i <= |s| - |sub| :: OccursAt(s, sub, i)
  }

  /** `strings.TrimPrefix(s, prefix)`: `s` without one leading `prefix`,
      and `s` itself when it does not start with `prefix`. */
  function TrimPrefix(s: string, prefix: string): (r: string)
    ensures HasPrefix(s, prefix) ==> s == prefix + r
    ensures !HasPrefix(s, prefix) ==> r == s
    ensures |r| <= |s|
  {
    if HasPrefix(s, prefix) then s[|prefix|..] else s
  }

  /** An occurrence makes the text contain the pattern. */
  lemma OccurrenceIsContained(s: string, sub: string, i: int)
    requires OccursAt(s, sub, i)
    ensures Contains(s, sub)
  {
  }

  /** Only ONE copy of the prefix is removed: a text made of the prefix
      followed by anything keeps all of that rest, including a second
      copy of the prefix. */
  lemma TrimPrefixOnce(prefix: string, rest: string)
    ensures TrimPrefix(prefix + rest, prefix) == rest
  {
    assert (prefix + rest)[..|prefix|] == prefix;
    assert (prefix + rest)[|prefix|..] == rest;
  }

  /** An occurrence of `p` that is not the stripped leading one survives
      the trim, shifted left by `|p|` when the prefix was removed. */
  lemma TrimPrefixKeepsLaterOccurrences(s: string, p: string, i: int)
    requires OccursAt(s, p, i)
    requires HasPrefix(s, p) ==> i >= |p|
    ensures OccursAt(TrimPrefix(s, p), p, if HasPrefix(s, p) then i - |p| else i)
    ensures Contains(TrimPrefix(s, p), p)
  {
    var r := TrimPrefix(s, p);
    var j := if HasPrefix(s, p) then i - |p| else i;
    if HasPrefix(s, p) {
      assert r == s[|p|..];
      assert r[j..j + |p|] == s[i..i + |p|];
    }
    assert OccursAt(r, p, j);
    OccurrenceIsContained(r, p, j);
  }
}
