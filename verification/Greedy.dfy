/**
 Greedy partitioning. Both the text injector (keymaps holding a bounded number
 of keysyms) and the overlay's line wrapping cut a sequence into consecutive
 pieces by filling each piece until the next element no longer fits. This
 module proves once that such a cut never uses more pieces than any other.
 */
module Greedy {

  /** The pieces put back together. */
  function Flatten<T>(pieces: seq<seq<T>>): seq<T> {
    if |pieces| == 0 then [] else pieces[0] + Flatten(pieces[1..])
  }

  /** A stretch of something that fits also fits. */
  ghost predicate Hereditary<T(!new)>(fits: seq<T> -> bool) {
    forall s: seq<T>, i: int, j: int :: 0 <= i <= j <= |s| && fits(s) ==> fits(s[i..j])
  }

  ghost predicate AllFit<T(!new)>(fits: seq<T> -> bool, pieces: seq<seq<T>>) {
    forall p :: p in pieces ==> fits(p)
  }

  /** Every piece fits, none is empty, and none could have taken one element more. */
  ghost predicate Filled<T(!new)>(fits: seq<T> -> bool, pieces: seq<seq<T>>) {
    && AllFit(fits, pieces)
    && (forall k :: 0 <= k < |pieces| ==> pieces[k] != [])
    && (forall k :: 0 <= k < |pieces| - 1 ==> !fits(pieces[k] + [pieces[k + 1][0]]))
  }

  lemma {:induction false} FlattenAppend<T>(pieces: seq<seq<T>>, last: seq<T>)
    ensures Flatten(pieces + [last]) == Flatten(pieces) + last
  {
    if |pieces| == 0 {
      assert pieces + [last] == [last];
      assert Flatten([last]) == last + Flatten([]);
    } else {
      assert (pieces + [last])[1..] == pieces[1..] + [last];
      FlattenAppend(pieces[1..], last);
    }
  }

  /**
   Greedy stays ahead: a filled cut of `rest` uses no more pieces than any
   fitting cut of `behind + rest`, for whatever prefix `behind` the other cut
   still has to get through.
   */
  lemma {:induction false} StaysAhead<T(!new)>(
      fits: seq<T> -> bool, filled: seq<seq<T>>, other: seq<seq<T>>, behind: seq<T>, rest: seq<T>)
    requires Hereditary(fits)
    requires Filled(fits, filled) && Flatten(filled) == rest
    requires AllFit(fits, other) && Flatten(other) == behind + rest
    ensures |filled| <= |other|
    decreases |other|
  {
    if |filled| == 0 || |other| == 0 {
    } else if |filled| > 1 {
      var g, next, after := filled[0], filled[1][0], Flatten(filled[1..]);
      assert rest == g + after && rest[..|g| + 1] == g + [next];
      var p := other[0];
      if |p| <= |behind| {
        assert p == (behind + rest)[..|p|] == behind[..|p|];
        assert Flatten(other[1..]) == (p + Flatten(other[1..]))[|p|..] == behind[|p|..] + rest;
        StaysAhead(fits, filled, other[1..], behind[|p|..], rest);
      } else {
        var m := |p| - |behind|;
        assert rest[..m] == (behind + rest)[..|p|][|behind|..] == p[|behind|..|p|];
        if |g| < m {
          PrefixFits(fits, rest, m, |g| + 1);
          assert false;
        }
        FilledTail(fits, filled);
        assert Flatten(other[1..]) == (behind + rest)[|p|..] == rest[m..] == g[m..] + after;
        StaysAhead(fits, filled[1..], other[1..], g[m..], after);
      }
    }
  }

  lemma PrefixFits<T(!new)>(fits: seq<T> -> bool, s: seq<T>, m: nat, k: nat)
    requires Hereditary(fits) && k <= m <= |s| && fits(s[..m])
    ensures fits(s[..k])
  {
    assert s[..k] == s[..m][0..k];
  }

  lemma FilledTail<T(!new)>(fits: seq<T> -> bool, pieces: seq<seq<T>>)
    requires Filled(fits, pieces) && |pieces| > 0
    ensures Filled(fits, pieces[1..])
  {
    forall k | 0 <= k < |pieces[1..]| - 1
      ensures !fits(pieces[1..][k] + [pieces[1..][k + 1][0]])
    {
      assert pieces[1..][k] == pieces[k + 1] && pieces[1..][k + 1] == pieces[k + 2];
    }
  }

  /** A filled cut is a cut into the fewest fitting pieces. */
  lemma FilledIsFewest<T(!new)>(fits: seq<T> -> bool, filled: seq<seq<T>>, other: seq<seq<T>>)
    requires Hereditary(fits)
    requires Filled(fits, filled) && AllFit(fits, other)
    requires Flatten(other) == Flatten(filled)
    ensures |filled| <= |other|
  {
    assert Flatten(other) == [] + Flatten(filled);
    StaysAhead(fits, filled, other, [], Flatten(filled));
  }
}
