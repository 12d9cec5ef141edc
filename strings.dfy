/** The string searches the core uses: `includes`, `indexOf`, and `replace` with a string pattern. */
module Strings {
  import opened Wrappers

  /** `sub` occurs in `s` starting at index `i`. */
  predicate OccursAt(s: string, sub: string, i: int)
  {
    0 <= i && i + |sub| <= |s| && s[i..i + |sub|] == sub
  }

  /** `s.includes(sub)`. */
  predicate Includes(s: string, sub: string)
  {
    exists i :: 0 <= i <= |s| && OccursAt(s, sub, i)
  }

  /** `s.indexOf(sub)`: the first index at which `sub` occurs, if any. */
  function IndexOf(s: string, sub: string): (r: Option<nat>)
    ensures r.Some? ==> OccursAt(s, sub, r.value)
    ensures r.Some? ==> forall j :: 0 <= j < r.value ==> !OccursAt(s, sub, j)
    ensures r.None? ==> !Includes(s, sub)
    decreases |s|
  {
    if |sub| > |s| then None
    else if s[..|sub|] == sub then Some(0)
    else
      assert forall j :: 1 <= j <= |s| ==> (OccursAt(s, sub, j) <==> OccursAt(s[1..], sub, j - 1)) by {
        forall j | 1 <= j <= |s| {
          OccursShift(s, sub, j);
        }
      }
      match IndexOf(s[1..], sub)
      case None => None
      case Some(k) => Some(k + 1)
  }

  lemma OccursShift(s: string, sub: string, j: int)
    requires 1 <= j && s != []
    ensures OccursAt(s, sub, j) <==> OccursAt(s[1..], sub, j - 1)
  {
    if j + |sub| <= |s| {
      assert s[1..][j - 1..j - 1 + |sub|] == s[j..j + |sub|];
    }
  }

  /** `s.replace(pattern, replacement)`: only the first occurrence is replaced. */
  function ReplaceFirst(s: string, pattern: string, replacement: string): string
  {
    match IndexOf(s, pattern)
    case None => s
    case Some(i) => s[..i] + replacement + s[i + |pattern|..]
  }

  /** `s.endsWith(suffix)`. */
  predicate EndsWith(s: string, suffix: string)
  {
    |suffix| <= |s| && s[|s| - |suffix|..] == suffix
  }

  /** `"".includes` anything empty: the empty string occurs in every string. */
  lemma EmptyIncluded(s: string)
    ensures Includes(s, "")
  {
    assert OccursAt(s, "", 0);
  }

  /**
   * Replacing keeps everything before the first occurrence and everything
   * after it, later occurrences included; without an occurrence nothing changes.
   */
  lemma ReplaceFirstEffect(s: string, pattern: string, replacement: string)
    ensures !Includes(s, pattern) ==> ReplaceFirst(s, pattern, replacement) == s
    ensures Includes(s, pattern) ==>
      var i := IndexOf(s, pattern).value;
      var r := ReplaceFirst(s, pattern, replacement);
      |r| == |s| - |pattern| + |replacement| &&
      r[..i] == s[..i] && r[i..i + |replacement|] == replacement &&
      r[i + |replacement|..] == s[i + |pattern|..]
  {
    if Includes(s, pattern) {
      var k :| OccursAt(s, pattern, k);
    }
  }
}
