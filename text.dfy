/**
 * Case-insensitive text comparison as the engine's FName equality and
 * FString::Contains (default ESearchCase::IgnoreCase) perform it, restricted to
 * ASCII case folding.
 */
module Text {

  function ToLower(c: char): (r: char)
    ensures 'A' <= c <= 'Z' ==> r as int == c as int + 32
    ensures !('A' <= c <= 'Z') ==> r == c
  {
    if 'A' <= c <= 'Z' then (c as int + 32) as char else c
  }

  /** The string with every ASCII upper-case letter folded to lower case. */
  function Lower(s: string): (r: string)
    ensures |r| == |s|
    ensures forall i :: 0 <= i < |s| ==> r[i] == ToLower(s[i])
  {
    seq(|s|, i requires 0 <= i < |s| => ToLower(s[i]))
  }

  /** `sub` occurs in `s` starting at index `i`. */
  predicate OccursAt(s: string, sub: string, i: int)
  {
    0 <= i && i + |sub| <= |s| && s[i..i + |sub|] == sub
  }

  /** FString::Contains(SubStr) with the default case-insensitive search. */
  predicate ContainsIgnoreCase(s: string, sub: string)
    ensures ContainsIgnoreCase(s, sub) ==> |sub| <= |s|
  {
    exists i | 0 <= i <= |s| - |sub| :: OccursAt(Lower(s), Lower(sub), i)
  }

  /** FName equality: the same text up to case. */
  predicate EqualsIgnoreCase(a: string, b: string)
  {
    Lower(a) == Lower(b)
  }

  /** FName::IsNone: the empty name and "None" (in any case) are both NAME_None. */
  predicate IsNoneName(name: string)
  {
    name == "" || EqualsIgnoreCase(name, "None")
  }

  /** FName equality: NAME_None equals only itself; other names compare up to case. */
  predicate NameEquals(a: string, b: string)
    ensures a == b ==> NameEquals(a, b)
    ensures IsNoneName(a) ==> (NameEquals(a, b) <==> IsNoneName(b))
    ensures NameEquals(a, b) ==> Lower(a) == Lower(b) || (IsNoneName(a) && IsNoneName(b))
  {
    if IsNoneName(a) || IsNoneName(b) then IsNoneName(a) && IsNoneName(b)
    else EqualsIgnoreCase(a, b)
  }

  /** Occurrence is transitive: an occurrence of `big` carries every occurrence inside it. */
  lemma OccursAtShift(s: string, big: string, small: string, i: int, j: int)
    requires OccursAt(s, big, i) && OccursAt(big, small, j)
    ensures OccursAt(s, small, i + j)
  {
    forall k | 0 <= k < |small|
      ensures s[i + j + k] == small[k]
    {
      assert s[i..i + |big|][j + k] == big[j + k];
      assert big[j..j + |small|][k] == small[k];
    }
  }

  /**
   * If `small` occurs (up to case) inside `big`, every string that contains `big`
   * also contains `small`.
   */
  lemma ContainsTransitive(s: string, big: string, small: string)
    requires ContainsIgnoreCase(big, small) && ContainsIgnoreCase(s, big)
    ensures ContainsIgnoreCase(s, small)
  {
    var j :| 0 <= j <= |big| - |small| && OccursAt(Lower(big), Lower(small), j);
    var i :| 0 <= i <= |s| - |big| && OccursAt(Lower(s), Lower(big), i);
    OccursAtShift(Lower(s), Lower(big), Lower(small), i, j);
  }

  /** A string that ends with `w` contains `w`. */
  lemma ContainsSuffix(prefix: string, w: string)
    ensures ContainsIgnoreCase(prefix + w, w)
  {
    var s := prefix + w;
    forall k | 0 <= k < |w|
      ensures Lower(s)[|prefix| + k] == Lower(w)[k]
    {
      assert s[|prefix| + k] == w[k];
    }
    assert Lower(s)[|prefix|..|prefix| + |w|] == Lower(w);
    assert OccursAt(Lower(s), Lower(w), |prefix|);
  }
}
