/** The few Kotlin string operations the core relies on, over `seq<char>`. */
module Strings {

  predicate StartsWith(s: string, prefix: string) {
    |prefix| <= |s| && s[..|prefix|] == prefix
  }

  predicate EndsWith(s: string, suffix: string) {
    |suffix| <= |s| && s[|s| - |suffix|..] == suffix
  }

  /** Does `target` occur in `s` starting at index `i`? */
  predicate OccursAt(s: string, target: string, i: int) {
    0 <= i && i + |target| <= |s| && s[i..i + |target|] == target
  }

  /** `s.replace(from, to)` for characters: every `from` becomes `to`, nothing else moves. */
  function ReplaceChar(s: string, from: char, to: char): (r: string)
    ensures |r| == |s|
    ensures forall i :: 0 <= i < |s| ==> r[i] == if s[i] == from then to else s[i]
    ensures from != to ==> from !in r
  {
    seq(|s|, i requires 0 <= i < |s| => if s[i] == from then to else s[i])
  }

  /**
   * `s.replace(target, replacement)` for a non-empty target: occurrences are found from the left and
   * do not overlap; scanning resumes after each replaced occurrence.
   */
  function ReplaceAll(s: string, target: string, replacement: string): (r: string)
    requires target != []
    ensures replacement == [] ==> |r| <= |s|
    decreases |s|
  {
    if |s| < |target| then s
    else if s[..|target|] == target then replacement + ReplaceAll(s[|target|..], target, replacement)
    else [s[0]] + ReplaceAll(s[1..], target, replacement)
  }

  /** `target` starts at no position of `s`. */
  predicate Absent(s: string, target: string) {
    forall i :: 0 <= i < |s| ==> !OccursAt(s, target, i)
  }

  /** A string without the target's first character holds no occurrence of it. */
  lemma AbsentWithoutFirst(s: string, target: string)
    requires target != [] && target[0] !in s
    ensures Absent(s, target)
  {
    forall i | 0 <= i < |s|
      ensures !OccursAt(s, target, i)
    {
      if i + |target| <= |s| {
        assert s[i..i + |target|][0] == s[i];
      }
    }
  }

  /** One more character in front adds no occurrence unless the target starts right there. */
  lemma AbsentCons(c: char, s: string, target: string)
    requires Absent(s, target) && !StartsWith([c] + s, target)
    ensures Absent([c] + s, target)
  {
    var cs := [c] + s;
    forall i | 0 <= i < |cs|
      ensures !OccursAt(cs, target, i)
    {
      if 1 <= i && i + |target| <= |cs| {
        assert !OccursAt(s, target, i - 1);
        assert cs[i..i + |target|] == s[i - 1..i - 1 + |target|];
      }
    }
  }

  /** A string in which `target` does not occur is left as it is. */
  lemma ReplaceAllAbsent(s: string, target: string, replacement: string)
    requires target != [] && Absent(s, target)
    ensures ReplaceAll(s, target, replacement) == s
  {
    ReplaceAllSkipsUpTo(s, target, replacement, |s|);
    assert s[..|s|] == s && s[|s|..] == [];
  }

  /** A string shorter than the target is left as it is. */
  lemma ReplaceAllShort(s: string, target: string, replacement: string)
    requires target != [] && |s| < |target|
    ensures ReplaceAll(s, target, replacement) == s
  {
  }

  /** An occurrence at the start is replaced and the search resumes after it. */
  lemma ReplaceAllAtMatch(s: string, target: string, replacement: string)
    requires target != [] && StartsWith(s, target)
    ensures ReplaceAll(s, target, replacement) == replacement + ReplaceAll(s[|target|..], target, replacement)
  {
  }

  /** Where `target` does not start the string, its first character is kept and the rest is searched. */
  lemma ReplaceAllSkipsMismatch(s: string, target: string, replacement: string)
    requires target != [] && |s| >= |target| && s[..|target|] != target
    ensures ReplaceAll(s, target, replacement) == [s[0]] + ReplaceAll(s[1..], target, replacement)
  {
  }

  /** Where `target` does not start at position `k`, the search keeps `s[k]` and goes on from `k + 1`. */
  lemma ReplaceAllKeeps(s: string, target: string, replacement: string, k: nat)
    requires target != [] && k < |s| && !OccursAt(s, target, k)
    ensures ReplaceAll(s[k..], target, replacement) == [s[k]] + ReplaceAll(s[k + 1..], target, replacement)
  {
    var t := s[k..];
    assert t[1..] == s[k + 1..] && t[0] == s[k];
    if |t| >= |target| {
      assert t[..|target|] == s[k..k + |target|];
      ReplaceAllSkipsMismatch(t, target, replacement);
    } else {
      ReplaceAllShort(t, target, replacement);
      ReplaceAllShort(s[k + 1..], target, replacement);
    }
  }

  /** The first `k - 1` characters, then character `k - 1`, are the first `k`. */
  lemma PrefixExtends(s: string, k: nat, later: string)
    requires 0 < k <= |s|
    ensures s[..k - 1] + ([s[k - 1]] + later) == s[..k] + later
  {
    assert s[..k - 1] + [s[k - 1]] == s[..k];
  }

  /** Where `target` starts at none of the first `k` positions, those `k` characters pass through unchanged. */
  lemma {:induction false} ReplaceAllSkipsUpTo(s: string, target: string, replacement: string, k: nat)
    requires target != [] && k <= |s|
    requires forall i :: 0 <= i < k ==> !OccursAt(s, target, i)
    ensures ReplaceAll(s, target, replacement) == s[..k] + ReplaceAll(s[k..], target, replacement)
  {
    if k == 0 {
      assert s[..0] == [] && s[0..] == s;
    } else {
      ReplaceAllSkipsUpTo(s, target, replacement, k - 1);
      ReplaceAllKeeps(s, target, replacement, k - 1);
      PrefixExtends(s, k, ReplaceAll(s[k..], target, replacement));
    }
  }

  /** `s.removeSuffix(suffix)`. */
  function RemoveSuffix(s: string, suffix: string): (r: string)
    ensures EndsWith(s, suffix) ==> r + suffix == s
    ensures !EndsWith(s, suffix) ==> r == s
  {
    if EndsWith(s, suffix) then s[..|s| - |suffix|] else s
  }

  /** `s.lastIndexOf(c)`: -1 when `c` does not occur. */
  function LastIndexOf(s: string, c: char): (r: int)
    ensures -1 <= r < |s|
    ensures r == -1 <==> c !in s
    ensures 0 <= r ==> s[r] == c && c !in s[r + 1..]
  {
    if s == [] then -1
    else if s[|s| - 1] == c then |s| - 1
    else
      var r := LastIndexOf(s[..|s| - 1], c);
      LastIndexOfStep(s, c, r);
      r
  }

  /** The last `c` of `s`, when `s` does not end in `c`, is the last `c` of `s` without its last character. */
  lemma LastIndexOfStep(s: string, c: char, r: int)
    requires s != [] && s[|s| - 1] != c
    requires -1 <= r < |s| - 1
    requires r == -1 <==> c !in s[..|s| - 1]
    requires 0 <= r ==> s[..|s| - 1][r] == c && c !in s[..|s| - 1][r + 1..]
    ensures r == -1 <==> c !in s
    ensures 0 <= r ==> s[r] == c && c !in s[r + 1..]
  {
    var init := s[..|s| - 1];
    assert s == init + [s[|s| - 1]];
    if 0 <= r {
      assert s[r] == init[r];
      assert s[r + 1..] == init[r + 1..] + [s[|s| - 1]];
    }
  }

  /** `s.substringAfterLast(delimiter, missing)`. */
  function SubstringAfterLast(s: string, delimiter: char, missing: string): (r: string)
    ensures delimiter !in s ==> r == missing
    ensures delimiter in s ==> delimiter !in r
    ensures delimiter in s ==> exists k :: 0 <= k < |s| && s[k] == delimiter && r == s[k + 1..]
  {
    var k := LastIndexOf(s, delimiter);
    if k < 0 then missing else s[k + 1..]
  }

  /** `c.lowercase()` on the ASCII range; every other character is left alone. */
  function LowerAscii(c: char): (r: char)
    ensures 'A' <= c <= 'Z' ==> 'a' <= r <= 'z' && r as int == c as int + 32
    ensures !('A' <= c <= 'Z') ==> r == c
  {
    if 'A' <= c <= 'Z' then (c as int + 32) as char else c
  }

  /** `s.replaceFirstChar { it.lowercase() }` on ASCII. */
  function LowerFirst(s: string): (r: string)
    ensures |r| == |s|
    ensures s != [] ==> r[0] == LowerAscii(s[0]) && r[1..] == s[1..]
  {
    if s == [] then s else [LowerAscii(s[0])] + s[1..]
  }
}
