/** Keeping the elements of a sequence that satisfy a test, in their original
    order: the row-mask selection `frame[mask]` that the filter and the anomaly
    list both perform. */
module Subsequences {

  /** The elements of `s` satisfying `p`, in order. */
  function Where<T(!new)>(s: seq<T>, p: T -> bool): (w: seq<T>)
    ensures |w| <= |s|
    ensures forall x :: x in w <==> x in s && p(x)
  {
    if |s| == 0 then []
    else
      var init := s[..|s| - 1];
      assert s == init + [s[|s| - 1]];
      Where(init, p) + (if p(s[|s| - 1]) then [s[|s| - 1]] else [])
  }

  /** The positions of `s` whose element satisfies `p`, in ascending order. */
  function Positions<T(!new)>(s: seq<T>, p: T -> bool): (ix: seq<nat>)
    ensures forall k :: 0 <= k < |ix| ==> ix[k] < |s| && p(s[ix[k]])
    ensures forall k, l :: 0 <= k < l < |ix| ==> ix[k] < ix[l]
    ensures forall i :: 0 <= i < |s| && p(s[i]) ==> i in ix
  {
    if |s| == 0 then []
    else
      var init := s[..|s| - 1];
      Positions(init, p) + (if p(s[|s| - 1]) then [|s| - 1] else [])
  }

  /** `Where` picks exactly the elements at `Positions`: the result is the
      subsequence of `s` at the ascending positions that pass the test. */
  lemma {:induction false} WhereAtPositions<T(!new)>(s: seq<T>, p: T -> bool)
    ensures |Where(s, p)| == |Positions(s, p)|
    ensures forall k :: 0 <= k < |Where(s, p)| ==> Where(s, p)[k] == s[Positions(s, p)[k]]
  {
    if |s| > 0 {
      var init, last := s[..|s| - 1], s[|s| - 1];
      WhereAtPositions(init, p);
      var w0, ix0 := Where(init, p), Positions(init, p);
      var w, ix := Where(s, p), Positions(s, p);
      assert w == w0 + (if p(last) then [last] else []);
      assert ix == ix0 + (if p(last) then [|s| - 1] else []);
      forall k | 0 <= k < |w|
        ensures w[k] == s[ix[k]]
      {
        if k < |w0| {
          assert w[k] == w0[k] == init[ix0[k]];
          assert ix[k] == ix0[k];
        }
      }
    }
  }

  /** When every element passes, nothing is dropped. */
  lemma {:induction false} WhereAll<T(!new)>(s: seq<T>, p: T -> bool)
    requires forall i :: 0 <= i < |s| ==> p(s[i])
    ensures Where(s, p) == s
  {
    if |s| > 0 {
      var init := s[..|s| - 1];
      WhereAll(init, p);
      assert Where(s, p) == Where(init, p) + [s[|s| - 1]];
      assert s == init + [s[|s| - 1]];
    }
  }

  /** The result is empty exactly when no element passes. */
  lemma WhereEmpty<T(!new)>(s: seq<T>, p: T -> bool)
    ensures Where(s, p) == [] <==> forall i :: 0 <= i < |s| ==> !p(s[i])
  {
    if Where(s, p) == [] {
      forall i | 0 <= i < |s|
        ensures !p(s[i])
      {
        assert s[i] in s;
      }
    } else {
      assert Where(s, p)[0] in Where(s, p);
    }
  }

  /** Keeping everything happens exactly when every element passes. */
  lemma WhereKeepsAll<T(!new)>(s: seq<T>, p: T -> bool)
    ensures Where(s, p) == s <==> forall i :: 0 <= i < |s| ==> p(s[i])
  {
    if forall i :: 0 <= i < |s| ==> p(s[i]) {
      WhereAll(s, p);
    } else if Where(s, p) == s {
      forall i | 0 <= i < |s|
        ensures p(s[i])
      {
        assert s[i] in Where(s, p);
      }
    }
  }
}
