/** String operations the reward pipeline relies on, with Python's semantics:
    `s.startswith(p)`, `sub in s` and `s.lower()` (ASCII letters only). */
module Text {

  /** `s.startswith(prefix)`: the first |prefix| characters of `s` are `prefix`. */
  predicate StartsWith(s: string, prefix: string): (b: bool)
    ensures b <==> exists rest :: s == prefix + rest
  {
    if |prefix| <= |s| && s[..|prefix|] == prefix then
      assert s == prefix + s[|prefix|..];
      true
    else
      assert forall rest :: s != prefix + rest by {
        forall rest ensures s != prefix + rest {
          assert (prefix + rest)[..|prefix|] == prefix;
        }
      }
      false
  }

  /** A string begins with whatever was prepended to it. */
  lemma StartsWithConcat(prefix: string, rest: string)
    ensures StartsWith(prefix + rest, prefix)
  {
    assert (prefix + rest)[..|prefix|] == prefix;
  }

  /** `sub` occurs in `s` beginning at index `i`. */
  ghost predicate OccursAt(s: string, sub: string, i: int)
  {
    0 <= i && i + |sub| <= |s| && s[i..i + |sub|] == sub
  }

  /** `sub` occurs somewhere in `s` (the meaning of Python's `sub in s`). */
  ghost predicate HasSubstring(s: string, sub: string)
  {
    exists i :: OccursAt(s, sub, i)
  }

  /** An occurrence in `s` is either at index 0 or an occurrence in `s[1..]` shifted by one. */
  lemma OccursShift(s: string, sub: string)
    requires |s| > 0
    ensures HasSubstring(s, sub) <==> OccursAt(s, sub, 0) || HasSubstring(s[1..], sub)
  {
    if HasSubstring(s, sub) && !OccursAt(s, sub, 0) {
      var i :| OccursAt(s, sub, i);
      assert s[1..][i - 1..i - 1 + |sub|] == s[i..i + |sub|];
      assert OccursAt(s[1..], sub, i - 1);
    }
    if HasSubstring(s[1..], sub) {
      var j :| OccursAt(s[1..], sub, j);
      assert s[j + 1..j + 1 + |sub|] == s[1..][j..j + |sub|];
      assert OccursAt(s, sub, j + 1);
    }
  }

  /** Python's `sub in s`, computed by a left-to-right scan. */
  function Contains(s: string, sub: string): (b: bool)
    ensures b <==> HasSubstring(s, sub)
    decreases |s|
  {
    if StartsWith(s, sub) then
      assert OccursAt(s, sub, 0);
      true
    else if |s| == 0 then
      assert forall i :: !OccursAt(s, sub, i);
      false
    else
      OccursShift(s, sub);
      Contains(s[1..], sub)
  }

  predicate IsUpper(c: char)
  {
    'A' <= c <= 'Z'
  }

  predicate IsLower(c: char)
  {
    'a' <= c <= 'z'
  }

  /** Lower-case mapping of one character (ASCII letters; every other character is kept). */
  function LowerChar(c: char): (d: char)
    ensures !IsUpper(d)
    ensures IsUpper(c) ==> IsLower(d) && d as int - c as int == 'a' as int - 'A' as int
    ensures !IsUpper(c) ==> d == c
  {
    if IsUpper(c) then (c as int - 'A' as int + 'a' as int) as char else c
  }

  /** Upper-case mapping of one character, used only to state that a lookup ignores case. */
  function UpperChar(c: char): (d: char)
    ensures !IsLower(d)
    ensures IsLower(c) ==> IsUpper(d) && LowerChar(d) == c
    ensures !IsLower(c) ==> d == c
  {
    if IsLower(c) then (c as int - 'a' as int + 'A' as int) as char else c
  }

  /** `s.lower()`: the same length, each character lower-cased. */
  function Lower(s: string): (r: string)
    ensures |r| == |s|
    ensures forall i :: 0 <= i < |s| ==> r[i] == LowerChar(s[i])
  {
    if s == [] then [] else [LowerChar(s[0])] + Lower(s[1..])
  }

  /** `s.upper()` on ASCII letters. */
  function Upper(s: string): (r: string)
    ensures |r| == |s|
    ensures forall i :: 0 <= i < |s| ==> r[i] == UpperChar(s[i])
  {
    if s == [] then [] else [UpperChar(s[0])] + Upper(s[1..])
  }

  /** Lower-casing an upper-cased string gives the same as lower-casing the original. */
  lemma LowerOfUpper(s: string)
    ensures Lower(Upper(s)) == Lower(s)
  {
    // pointwise, from the contracts of Lower, Upper and UpperChar
    assert forall i :: 0 <= i < |s| ==> Lower(Upper(s))[i] == Lower(s)[i];
  }
}
