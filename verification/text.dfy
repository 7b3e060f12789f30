/**
  The string operations the search box relies on: `toLowerCase` (restricted
  to the ASCII letters) and `includes` (substring occurrence).
 */
module Text {

  predicate IsUpperAscii(c: char) {
    'A' <= c <= 'Z'
  }

  /** Maps an ASCII capital to its small letter and leaves every other character alone. */
  function LowerChar(c: char): (r: char)
    ensures !IsUpperAscii(r)
    ensures IsUpperAscii(c) ==> r as int == c as int + 32
    ensures !IsUpperAscii(c) ==> r == c
  {
    if IsUpperAscii(c) then (c as int + 32) as char else c
  }

  /** `toLowerCase` on the ASCII letters. */
  function Lower(s: string): (r: string)
    ensures |r| == |s|
    ensures forall i :: 0 <= i < |r| ==> !IsUpperAscii(r[i])
    ensures forall i :: 0 <= i < |s| && !IsUpperAscii(s[i]) ==> r[i] == s[i]
    ensures forall i :: 0 <= i < |s| && IsUpperAscii(s[i]) ==> r[i] as int == s[i] as int + 32
  {
    seq(|s|, i requires 0 <= i < |s| => LowerChar(s[i]))
  }

  /** `needle` occurs in `hay` at position `i`. */
  predicate OccursAt(hay: string, needle: string, i: nat) {
    i + |needle| <= |hay| && hay[i..i + |needle|] == needle
  }

  /** `hay.includes(needle)`: the needle occurs somewhere in the hay. */
  predicate Contains(hay: string, needle: string) {
    exists i: nat :: i <= |hay| && OccursAt(hay, needle, i)
  }

  /** Lowering twice is lowering once. */
  lemma LowerIdempotent(s: string)
    ensures Lower(Lower(s)) == Lower(s)
  {
    var l := Lower(s);
    assert forall i :: 0 <= i < |l| ==> Lower(l)[i] == l[i];
  }

  /** The empty string occurs in every string, at position 0. */
  lemma EmptyIsContained(hay: string)
    ensures Contains(hay, "")
  {
    assert OccursAt(hay, "", 0);
  }

  /** Executable `includes`: tries every start position from left to right. */
  method Includes(hay: string, needle: string) returns (found: bool)
    ensures found <==> Contains(hay, needle)
  {
    if |needle| > |hay| {
      return false;
    }
    var i := 0;
    while i + |needle| <= |hay|
      invariant i <= |hay| - |needle| + 1
      invariant forall j: nat :: j < i ==> !OccursAt(hay, needle, j)
    {
      if hay[i..i + |needle|] == needle {
        assert OccursAt(hay, needle, i);
        return true;
      }
      i := i + 1;
    }
    return false;
  }
}
