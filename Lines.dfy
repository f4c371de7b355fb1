/**
 * The list comprehensions the core uses on lines of text:
 * `[x for x in s if keep(x)]` and `[f(x) for x in s]`.
 */
module Lines {

  /** The elements of `s` that satisfy `keep`, in order. */
  function Filter<T>(s: seq<T>, keep: T -> bool): (r: seq<T>)
    ensures |r| <= |s|
  {
    if |s| == 0 then []
    else Filter(s[..|s| - 1], keep) + (if keep(s[|s| - 1]) then [s[|s| - 1]] else [])
  }

  /** `f` applied to every element, in order. */
  function Map<T, U>(s: seq<T>, f: T -> U): (r: seq<U>)
    ensures |r| == |s|
  {
    if |s| == 0 then [] else Map(s[..|s| - 1], f) + [f(s[|s| - 1])]
  }

  /** Every kept element satisfies `keep`. */
  lemma {:induction false} FilterSatisfies<T>(s: seq<T>, keep: T -> bool)
    ensures forall k :: 0 <= k < |Filter(s, keep)| ==> keep(Filter(s, keep)[k])
  {
    if |s| > 0 {
      FilterSatisfies(s[..|s| - 1], keep);
    }
  }

  /** The image of each element sits at the element's position. */
  lemma {:induction false} MapAt<T, U>(s: seq<T>, f: T -> U)
    ensures forall k :: 0 <= k < |s| ==> Map(s, f)[k] == f(s[k])
  {
    if |s| > 0 {
      MapAt(s[..|s| - 1], f);
    }
  }

  /** The positions of the elements `Filter` keeps. */
  ghost function FilterPositions<T>(s: seq<T>, keep: T -> bool): seq<int>
  {
    if |s| == 0 then []
    else FilterPositions(s[..|s| - 1], keep) + (if keep(s[|s| - 1]) then [|s| - 1] else [])
  }

  /** Each kept element is the element at the matching kept position. */
  lemma {:induction false} FilterPositionsMatch<T>(s: seq<T>, keep: T -> bool)
    ensures |FilterPositions(s, keep)| == |Filter(s, keep)|
    ensures forall k :: 0 <= k < |FilterPositions(s, keep)| ==>
              0 <= FilterPositions(s, keep)[k] < |s| && Filter(s, keep)[k] == s[FilterPositions(s, keep)[k]]
  {
    if |s| > 0 {
      var n := |s| - 1;
      var init := s[..n];
      FilterPositionsMatch(init, keep);
      var pos, kept := FilterPositions(s, keep), Filter(s, keep);
      var pos0, kept0 := FilterPositions(init, keep), Filter(init, keep);
      if keep(s[n]) {
        assert pos == pos0 + [n] && kept == kept0 + [s[n]];
        forall k | 0 <= k < |pos|
          ensures 0 <= pos[k] < |s| && kept[k] == s[pos[k]]
        {
          if k < |pos0| {
            assert pos[k] == pos0[k] && kept[k] == kept0[k];
            assert init[pos0[k]] == s[pos0[k]];
          }
        }
      } else {
        assert pos == pos0 && kept == kept0;
        forall k | 0 <= k < |pos|
          ensures 0 <= pos[k] < |s| && kept[k] == s[pos[k]]
        {
          assert init[pos0[k]] == s[pos0[k]];
        }
      }
    }
  }

  /** The kept positions increase. */
  lemma {:induction false} FilterPositionsIncrease<T>(s: seq<T>, keep: T -> bool)
    ensures forall k :: 0 <= k < |FilterPositions(s, keep)| ==> 0 <= FilterPositions(s, keep)[k] < |s|
    ensures forall k, m :: 0 <= k < m < |FilterPositions(s, keep)| ==>
              FilterPositions(s, keep)[k] < FilterPositions(s, keep)[m]
  {
    if |s| > 0 {
      var n := |s| - 1;
      FilterPositionsIncrease(s[..n], keep);
      if keep(s[n]) {
        assert FilterPositions(s, keep) == FilterPositions(s[..n], keep) + [n];
      } else {
        assert FilterPositions(s, keep) == FilterPositions(s[..n], keep);
      }
    }
  }

  /** Every element that satisfies `keep` is at a kept position. */
  lemma {:induction false} FilterPositionsComplete<T>(s: seq<T>, keep: T -> bool)
    ensures forall p :: 0 <= p < |s| && keep(s[p]) ==> p in FilterPositions(s, keep)
  {
    if |s| > 0 {
      var n := |s| - 1;
      var init := s[..n];
      FilterPositionsComplete(init, keep);
      var pos, pos0 := FilterPositions(s, keep), FilterPositions(init, keep);
      if keep(s[n]) {
        assert pos == pos0 + [n];
        forall p | 0 <= p < |s| && keep(s[p])
          ensures p in pos
        {
          if p < n {
            assert init[p] == s[p];
            assert p in pos0;
          } else {
            assert pos[|pos0|] == n;
          }
        }
      } else {
        assert pos == pos0;
        forall p | 0 <= p < |s| && keep(s[p])
          ensures p in pos
        {
          assert p != n;
          assert init[p] == s[p];
        }
      }
    }
  }

  /** Filtering keeps everything when every element satisfies `keep`. */
  lemma {:induction false} FilterKeepsAll<T>(s: seq<T>, keep: T -> bool)
    requires forall k :: 0 <= k < |s| ==> keep(s[k])
    ensures Filter(s, keep) == s
  {
    if |s| > 0 {
      FilterKeepsAll(s[..|s| - 1], keep);
      assert s[..|s| - 1] + [s[|s| - 1]] == s;
    }
  }

  /** Filtering keeps nothing when no element satisfies `keep`. */
  lemma {:induction false} FilterKeepsNone<T>(s: seq<T>, keep: T -> bool)
    requires forall k :: 0 <= k < |s| ==> !keep(s[k])
    ensures Filter(s, keep) == []
  {
    if |s| > 0 {
      FilterKeepsNone(s[..|s| - 1], keep);
    }
  }

  /** Filtering one element more appends it when it is kept. */
  lemma FilterAppend<T>(s: seq<T>, x: T, keep: T -> bool)
    ensures Filter(s + [x], keep) == Filter(s, keep) + (if keep(x) then [x] else [])
  {
  }

  /** Filtering and mapping one element more appends its image when it is kept. */
  lemma MapFilterAppend<T, U>(s: seq<T>, x: T, keep: T -> bool, f: T -> U)
    ensures Map(Filter(s + [x], keep), f) == Map(Filter(s, keep), f) + (if keep(x) then [f(x)] else [])
  {
    FilterAppend(s, x, keep);
    var kept := Filter(s, keep);
    if keep(x) {
      assert (kept + [x])[..|kept|] == kept;
    } else {
      assert kept + [] == kept;
    }
  }
}
