/** The few JavaScript string operations the app relies on: `includes`,
    `startsWith`, `endsWith`, `split(c)[0]`, `replace` with a string pattern,
    and an ASCII `toLowerCase`. */
module Text {
  import opened Types

  /** `sub` occurs in `s` starting at index `i`. */
  predicate OccursAt(s: string, sub: string, i: int)
  {
    0 <= i && i + |sub| <= |s| && s[i..i + |sub|] == sub
  }

  /** `s.includes(sub)`. */
  predicate Contains(s: string, sub: string)
  {
    exists i :: 0 <= i <= |s| - |sub| && OccursAt(s, sub, i)
  }

  /** `s.startsWith(p)`. */
  predicate HasPrefix(s: string, p: string)
  {
    |p| <= |s| && s[..|p|] == p
  }

  /** `s.endsWith(suffix)`. */
  predicate EndsWith(s: string, suffix: string)
  {
    |suffix| <= |s| && s[|s| - |suffix|..] == suffix
  }

  /** The first index at or after `i` where `sub` occurs, as `indexOf` finds it. */
  function FindFrom(s: string, sub: string, i: nat): (r: Option<nat>)
    requires i <= |s|
    ensures r.Some? ==> i <= r.value && OccursAt(s, sub, r.value)
    ensures r.Some? ==> forall j :: i <= j < r.value ==> !OccursAt(s, sub, j)
    ensures r.None? ==> forall j :: i <= j ==> !OccursAt(s, sub, j)
    decreases |s| - i
  {
    if OccursAt(s, sub, i) then Some(i)
    else if i == |s| then None
    else FindFrom(s, sub, i + 1)
  }

  /** `includes` holds exactly when the `indexOf` search finds an
      occurrence. */
  lemma ContainsFound(s: string, sub: string)
    ensures Contains(s, sub) <==> FindFrom(s, sub, 0).Some?
  {
    var r := FindFrom(s, sub, 0);
    if r.Some? {
      assert OccursAt(s, sub, r.value);
    }
  }

  /** `s.replace(pattern, replacement)` with a string pattern: only the FIRST
      occurrence is replaced; without one the string is returned unchanged. */
  function ReplaceFirst(s: string, pattern: string, replacement: string): (r: string)
    ensures !Contains(s, pattern) ==> r == s
  {
    match FindFrom(s, pattern, 0)
    case None => s
    case Some(i) => s[..i] + replacement + s[i + |pattern|..]
  }

  /** A first occurrence at `i` is the one `replace` rewrites. */
  lemma ReplaceFirstAt(s: string, pattern: string, replacement: string, i: nat)
    requires OccursAt(s, pattern, i)
    requires forall j :: 0 <= j < i ==> !OccursAt(s, pattern, j)
    ensures ReplaceFirst(s, pattern, replacement) == s[..i] + replacement + s[i + |pattern|..]
  {
    var k := FindFrom(s, pattern, 0);
    assert k == Some(i);
  }

  /** A character found neither in the string nor in the replacement is not
      in the result. */
  lemma ReplaceFirstAvoids(s: string, pattern: string, replacement: string, c: char)
    requires c !in s && c !in replacement
    ensures c !in ReplaceFirst(s, pattern, replacement)
  {
    match FindFrom(s, pattern, 0)
    case None =>
    case Some(i) =>
      assert c !in s[..i] && c !in s[i + |pattern|..] by {
        assert s == s[..i] + s[i..];
        assert s[i..] == s[i..i + |pattern|] + s[i + |pattern|..];
      }
  }

  /** `s.split(c)[0]`: the text before the first `c`, or all of `s`. */
  function BeforeFirst(s: string, c: char): (r: string)
    ensures c !in r
    ensures HasPrefix(s, r)
    ensures |r| < |s| ==> s[|r|] == c
  {
    if s == [] || s[0] == c then []
    else [s[0]] + BeforeFirst(s[1..], c)
  }

  /** ASCII lower case of one character; every other character is kept. */
  function LowerChar(c: char): char
  {
    if 'A' <= c <= 'Z' then (c as int - 'A' as int + 'a' as int) as char else c
  }

  /** `s.toLowerCase()`, restricted to ASCII letters. */
  function Lower(s: string): (r: string)
    ensures |r| == |s|
    ensures forall i :: 0 <= i < |s| ==> r[i] == LowerChar(s[i])
  {
    seq(|s|, i requires 0 <= i < |s| => LowerChar(s[i]))
  }
}
