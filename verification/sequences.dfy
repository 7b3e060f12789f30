/**
  `Array.prototype.filter` over sequences, and what it means for one
  sequence to be an order-preserving subsequence of another.
 */
module Sequences {

  /** The elements of `s` that `keep` accepts, in their original order. */
  function Select<T>(s: seq<T>, keep: T -> bool): (r: seq<T>)
    ensures |r| <= |s|
    ensures forall i :: 0 <= i < |r| ==> keep(r[i])
    ensures forall i :: 0 <= i < |s| && keep(s[i]) ==> s[i] in r
    ensures forall i :: 0 <= i < |r| ==> r[i] in s
  {
    if |s| == 0 then []
    else if keep(s[0]) then [s[0]] + Select(s[1..], keep)
    else Select(s[1..], keep)
  }

  /**
    `idx` picks the elements of `r` out of `s`: `r[k] == s[idx[k]]`, with
    strictly increasing positions.
   */
  ghost predicate IsEmbedding<T>(r: seq<T>, s: seq<T>, idx: seq<nat>) {
    && |idx| == |r|
    && (forall k :: 0 <= k < |idx| ==> idx[k] < |s| && r[k] == s[idx[k]])
    && (forall k, l :: 0 <= k < l < |idx| ==> idx[k] < idx[l])
  }

  /** `r` is `s` with some elements removed and the rest in their original order. */
  ghost predicate IsSubsequence<T>(r: seq<T>, s: seq<T>) {
    exists idx :: IsEmbedding(r, s, idx)
  }

  /** Shifts every position by one, for an embedding into `[x] + s`. */
  function Shift(idx: seq<nat>): seq<nat> {
    seq(|idx|, k requires 0 <= k < |idx| => idx[k] + 1)
  }

  /** An embedding into the tail of `s` shifts to an embedding into `s`. */
  lemma ShiftEmbedding<T>(r: seq<T>, s: seq<T>, idx: seq<nat>)
    requires |s| > 0 && IsEmbedding(r, s[1..], idx)
    ensures IsEmbedding(r, s, Shift(idx))
    ensures IsEmbedding([s[0]] + r, s, [0] + Shift(idx))
  {
    var shifted := Shift(idx);
    var r' := [s[0]] + r;
    var idx' := [0] + shifted;
    forall k | 0 <= k < |idx'|
      ensures idx'[k] < |s| && r'[k] == s[idx'[k]]
    {
      if k > 0 {
        assert idx'[k] == idx[k - 1] + 1 && r'[k] == r[k - 1];
      }
    }
  }

  /** The positions in `s` that `Select` keeps, as a witness of the embedding. */
  lemma {:induction false} SelectEmbedding<T>(s: seq<T>, keep: T -> bool) returns (idx: seq<nat>)
    ensures IsEmbedding(Select(s, keep), s, idx)
  {
    if |s| == 0 {
      idx := [];
    } else {
      var rest := SelectEmbedding(s[1..], keep);
      ShiftEmbedding(Select(s[1..], keep), s, rest);
      if keep(s[0]) {
        idx := [0] + Shift(rest);
      } else {
        idx := Shift(rest);
      }
    }
  }

  /** Filtering yields an order-preserving subsequence. */
  lemma SelectIsSubsequence<T>(s: seq<T>, keep: T -> bool)
    ensures IsSubsequence(Select(s, keep), s)
  {
    var idx := SelectEmbedding(s, keep);
  }

  /** A subsequence of a subsequence is a subsequence. */
  lemma SubsequenceTransitive<T>(a: seq<T>, b: seq<T>, c: seq<T>)
    requires IsSubsequence(a, b) && IsSubsequence(b, c)
    ensures IsSubsequence(a, c)
  {
    var ab :| IsEmbedding(a, b, ab);
    var bc :| IsEmbedding(b, c, bc);
    var ac := seq(|ab|, k requires 0 <= k < |ab| => bc[ab[k]]);
    assert IsEmbedding(a, c, ac);
  }

  /** Filtering with a predicate every element meets changes nothing. */
  lemma {:induction false} SelectKeepsAll<T>(s: seq<T>, keep: T -> bool)
    requires forall i :: 0 <= i < |s| ==> keep(s[i])
    ensures Select(s, keep) == s
  {
    if |s| > 0 {
      SelectKeepsAll(s[1..], keep);
      assert [s[0]] + s[1..] == s;
    }
  }

  /** Filtering with a predicate no element meets leaves nothing. */
  lemma {:induction false} SelectKeepsNone<T>(s: seq<T>, keep: T -> bool)
    requires forall i :: 0 <= i < |s| ==> !keep(s[i])
    ensures Select(s, keep) == []
  {
    if |s| > 0 {
      SelectKeepsNone(s[1..], keep);
    }
  }

  /** Two filters in a row are one filter by the conjunction of their predicates. */
  lemma {:induction false} SelectFusion<T>(s: seq<T>, first: T -> bool, second: T -> bool, both: T -> bool)
    requires forall x :: both(x) == (first(x) && second(x))
    ensures Select(Select(s, first), second) == Select(s, both)
  {
    if |s| > 0 {
      SelectFusion(s[1..], first, second, both);
      if first(s[0]) {
        assert Select(s, first) == [s[0]] + Select(s[1..], first);
        assert ([s[0]] + Select(s[1..], first))[1..] == Select(s[1..], first);
      }
    }
  }

  /** Membership in a filtered sequence, both directions. */
  lemma SelectMembership<T>(s: seq<T>, keep: T -> bool, x: T)
    ensures x in Select(s, keep) <==> x in s && keep(x)
  {
    if x in Select(s, keep) {
      var i :| 0 <= i < |Select(s, keep)| && Select(s, keep)[i] == x;
    }
    if x in s && keep(x) {
      var i :| 0 <= i < |s| && s[i] == x;
    }
  }
}
