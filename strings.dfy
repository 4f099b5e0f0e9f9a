/** Substring containment on strings (sequences of characters). */
module Strings {

  /** True iff `part` occurs in `s` as a contiguous slice (JavaScript's `s.includes(part)`). */
  predicate Contains(s: string, part: string) {
    exists i | 0 <= i <= |s| :: OccursAt(s, part, i)
  }

  /** `part` occurs in `s` starting at position `i`. */
  predicate OccursAt(s: string, part: string, i: int) {
    0 <= i && i + |part| <= |s| && s[i..i + |part|] == part
  }

  /** A string contains itself placed between any prefix and suffix. */
  lemma {:induction false} ContainsMiddle(prefix: string, part: string, suffix: string)
    ensures Contains(prefix + part + suffix, part)
  {
    var s := prefix + part + suffix;
    assert s[|prefix|..|prefix| + |part|] == part;
    assert OccursAt(s, part, |prefix|);
  }
}
