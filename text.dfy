/** The two string operations the bias detector uses: `toLowerCase` and `includes`. */
module Text {

  /** Lowercases one character; only the ASCII letters `A`-`Z` change. */
  function LowerChar(c: char): char
  {
    if 'A' <= c <= 'Z' then ((c as int) + 32) as char else c
  }

  /** `s.toLowerCase()` on the ASCII range: same length, each character lowered in place. */
  function ToLower(s: string): (r: string)
    ensures |r| == |s|
    ensures forall i :: 0 <= i < |s| ==> r[i] == LowerChar(s[i])
  {
    if s == [] then [] else [LowerChar(s[0])] + ToLower(s[1..])
  }

  /** `sub` occurs in `s` starting at position `i`. */
  predicate OccursAt(s: string, sub: string, i: nat)
  {
    i + |sub| <= |s| && s[i..i + |sub|] == sub
  }

  /** `s.includes(sub)`: `sub` occurs in `s` at some position. */
  predicate Includes(s: string, sub: string)
    ensures |sub| > |s| ==> !Includes(s, sub)
  {
    exists i: nat :: i <= |s| && OccursAt(s, sub, i)
  }

  /** A witness position is enough to show that `sub` occurs in `s`. */
  lemma IncludesAt(s: string, sub: string, i: nat)
    requires OccursAt(s, sub, i)
    ensures Includes(s, sub)
  {
  }

  /** A prefix of `s` is included in `s`. */
  lemma IncludesPrefix(s: string, sub: string)
    requires |sub| <= |s| && s[..|sub|] == sub
    ensures Includes(s, sub)
  {
    assert OccursAt(s, sub, 0);
  }
}
