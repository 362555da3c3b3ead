/** The two `System.String` operations the program relies on. */
module Text {

  /** `pattern` occurs in `s` at index `i` (ordinal, character by character). */
  ghost predicate OccursAt(s: string, pattern: string, i: int)
  {
    0 <= i <= |s| - |pattern| && s[i..i + |pattern|] == pattern
  }

  /** `s.Contains(pattern)`, which compares ordinally. */
  function Contains(s: string, pattern: string): (r: bool)
    ensures r <==> exists i :: OccursAt(s, pattern, i)
    decreases |s|
  {
    if |pattern| <= |s| && s[..|pattern|] == pattern then
      assert OccursAt(s, pattern, 0);
      true
    else if |pattern| >= |s| then
      false
    else
      var rest := Contains(s[1..], pattern);
      if rest then
        assert exists i :: OccursAt(s, pattern, i) by {
          var j :| OccursAt(s[1..], pattern, j);
          assert s[j + 1..j + 1 + |pattern|] == s[1..][j..j + |pattern|];
          assert OccursAt(s, pattern, j + 1);
        }
        true
      else
        assert forall i | OccursAt(s, pattern, i) :: i >= 1 && OccursAt(s[1..], pattern, i - 1) by {
          forall i | OccursAt(s, pattern, i)
            ensures i >= 1 && OccursAt(s[1..], pattern, i - 1)
          {
            if i != 0 {
              assert s[1..][i - 1..i - 1 + |pattern|] == s[i..i + |pattern|];
            }
          }
        }
        false
  }

  /** A witness occurrence makes `Contains` hold. */
  lemma ContainsWitness(s: string, pattern: string, i: int)
    requires 0 <= i <= |s| - |pattern| && s[i..i + |pattern|] == pattern
    ensures Contains(s, pattern)
  {
    assert OccursAt(s, pattern, i);
  }

  /** A string contains each of its suffixes. */
  lemma ContainsSuffix(prefix: string, pattern: string)
    ensures Contains(prefix + pattern, pattern)
  {
    var s := prefix + pattern;
    assert s[|prefix|..|prefix| + |pattern|] == pattern;
    ContainsWitness(s, pattern, |prefix|);
  }

  /** Appending to a string keeps every occurrence in it. */
  lemma ContainsExtended(s: string, pattern: string, suffix: string)
    requires Contains(s, pattern)
    ensures Contains(s + suffix, pattern)
  {
    var i :| OccursAt(s, pattern, i);
    assert (s + suffix)[i..i + |pattern|] == s[i..i + |pattern|];
    ContainsWitness(s + suffix, pattern, i);
  }

  /** `string.Join(separator, parts)`. */
  function Join(separator: string, parts: seq<string>): (r: string)
    ensures parts == [] ==> r == ""
    ensures |parts| == 1 ==> r == parts[0]
    ensures |parts| == 2 ==> r == parts[0] + separator + parts[1]
  {
    if parts == [] then ""
    else if |parts| == 1 then parts[0]
    else parts[0] + separator + Join(separator, parts[1..])
  }
}
