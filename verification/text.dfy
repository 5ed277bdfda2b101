/**
 * The few string operations of Swift's standard library that the modelled
 * code uses: `lowercased()`, `hasPrefix`, `hasSuffix` and `contains`.
 * Strings are sequences of characters; case mapping covers ASCII letters only.
 */
module Text {

  /** The lower-case form of one character (ASCII letters; everything else unchanged). */
  function LowerChar(c: char): char
  {
    if 'A' <= c <= 'Z' then (c as int - 'A' as int + 'a' as int) as char else c
  }

  /** `s.lowercased()`. */
  function Lowercased(s: string): (r: string)
    ensures |r| == |s|
    ensures forall i :: 0 <= i < |s| ==> r[i] == LowerChar(s[i])
  {
    seq(|s|, i requires 0 <= i < |s| => LowerChar(s[i]))
  }

  /** `s.hasPrefix(p)`: every string starts with "", and a prefix as long as s is s. */
  predicate HasPrefix(s: string, p: string)
    ensures p == [] ==> HasPrefix(s, p)
    ensures HasPrefix(s, p) && |p| == |s| ==> p == s
  {
    |p| <= |s| && s[..|p|] == p
  }

  /** `s.hasSuffix(p)`: every string ends with "", and a suffix as long as s is s. */
  predicate HasSuffix(s: string, p: string)
    ensures p == [] ==> HasSuffix(s, p)
    ensures HasSuffix(s, p) && |p| == |s| ==> p == s
  {
    |p| <= |s| && s[|s| - |p|..] == p
  }

  /** `t` occurs in `s` starting at index `i`. */
  predicate OccursAt(s: string, t: string, i: int)
  {
    0 <= i && i + |t| <= |s| && s[i..i + |t|] == t
  }

  /**
   * `s.contains(t)`: `t` occurs in `s` at some position. Only a string no
   * longer than s can occur in it, and the empty string always does.
   */
  predicate Contains(s: string, t: string)
    ensures Contains(s, t) ==> |t| <= |s|
    ensures t == [] ==> Contains(s, t)
  {
    assert OccursAt(s, [], 0);
    exists i :: 0 <= i <= |s| && OccursAt(s, t, i)
  }

  /** A prefix and a suffix of s both occur in s. */
  lemma ContainsPrefixAndSuffix(s: string, t: string)
    ensures HasPrefix(s, t) ==> Contains(s, t)
    ensures HasSuffix(s, t) ==> Contains(s, t)
  {
    if HasPrefix(s, t) {
      assert OccursAt(s, t, 0);
    }
    if HasSuffix(s, t) {
      assert OccursAt(s, t, |s| - |t|);
    }
  }

  /** Lower-casing distributes over concatenation. */
  lemma {:induction false} LowercasedAppend(s: string, t: string)
    ensures Lowercased(s + t) == Lowercased(s) + Lowercased(t)
  {
    var l, r := Lowercased(s + t), Lowercased(s) + Lowercased(t);
    assert |l| == |r|;
    forall i | 0 <= i < |l| ensures l[i] == r[i] {
      if i < |s| {
        assert (s + t)[i] == s[i];
      } else {
        assert (s + t)[i] == t[i - |s|];
      }
    }
  }
}
