/** The swap loop shared by the three shuffles of the source
    (BlackjackEngine.ts:135-138, PaiGowEngine.ts:156-159,
    MathChallengeEngine.ts:259-262): for i from top down, swap entries i and
    j_i. Knuth's Algorithm P (TAOCP Vol. 2, section 3.4.2) draws j_i in [0, i].
    The swap indices are a parameter here; each engine computes them from its
    own generator; the swap indices of the `SeededRandom` generator are
    defined here, since two engines share them. */
module FisherYates {
  import opened Random

  function Swap<T>(s: seq<T>, i: int, j: int): (r: seq<T>)
    requires 0 <= i < |s| && 0 <= j < |s|
    ensures |r| == |s| && r[i] == s[j] && r[j] == s[i]
    ensures forall k :: 0 <= k < |s| && k != i && k != j ==> r[k] == s[k]
  {
    s[i := s[j]][j := s[i]]
  }

  /** A swap only rearranges. */
  lemma SwapPermutes<T>(s: seq<T>, i: int, j: int)
    requires 0 <= i < |s| && 0 <= j < |s|
    ensures multiset(Swap(s, i, j)) == multiset(s)
  {
  }

  /** Swap index js[k] is used with top index top - k and lies in [0, top - k]. */
  predicate InRange(js: seq<int>, top: int) {
    forall k :: 0 <= k < |js| ==> 0 <= js[k] <= top - k
  }

  /** The sequence after swapping entry top - k with entry js[k], for
      k = 0, 1, ..., |js| - 1 in that order. */
  function Swaps<T>(s: seq<T>, top: int, js: seq<int>): (r: seq<T>)
    requires js != [] ==> |js| <= top < |s|
    requires InRange(js, top)
    ensures |r| == |s|
    decreases |js|
  {
    if js == [] then s
    else
      var n := |js| - 1;
      Swap(Swaps(s, top, js[..n]), top - n, js[n])
  }

  /** The swaps only rearrange: the result holds the same entries, each as
      often as before. */
  lemma {:induction false} SwapsPermutes<T>(s: seq<T>, top: int, js: seq<int>)
    requires js != [] ==> |js| <= top < |s|
    requires InRange(js, top)
    ensures multiset(Swaps(s, top, js)) == multiset(s)
    decreases |js|
  {
    if js != [] {
      var n := |js| - 1;
      SwapsPermutes(s, top, js[..n]);
      SwapPermutes(Swaps(s, top, js[..n]), top - n, js[n]);
    }
  }

  /** A next index in range extends a sequence of indices in range. */
  lemma InRangeSnoc(js: seq<int>, top: int, j: int)
    requires InRange(js, top) && 0 <= j <= top - |js|
    ensures InRange(js + [j], top)
  {
    forall k | 0 <= k < |js| + 1 ensures 0 <= (js + [j])[k] <= top - k {
      if k < |js| {
        assert (js + [j])[k] == js[k];
      }
    }
  }

  /** One more swap at the end of the loop. */
  lemma SwapsSnoc<T>(s: seq<T>, top: int, js: seq<int>, j: int)
    requires |js| + 1 <= top < |s|
    requires 0 <= j <= top - |js|
    requires InRange(js, top)
    ensures InRange(js + [j], top)
    ensures Swaps(s, top, js + [j]) == Swap(Swaps(s, top, js), top - |js|, j)
  {
    InRangeSnoc(js, top, j);
    assert (js + [j])[..|js|] == js;
    assert (js + [j])[|js|] == j;
  }

  predicate Distinct<T(==)>(s: seq<T>) {
    forall i, j :: 0 <= i < j < |s| ==> s[i] != s[j]
  }

  /** No entry is repeated exactly when every multiplicity is at most one. */
  lemma {:induction false} DistinctMultiset<T>(s: seq<T>)
    ensures Distinct(s) <==> forall x :: multiset(s)[x] <= 1
  {
    if s != [] {
      DistinctMultiset(s[1..]);
      assert s == [s[0]] + s[1..];
      assert multiset(s) == multiset{s[0]} + multiset(s[1..]);
      if Distinct(s) {
        assert s[0] !in s[1..];
      }
      if forall x :: multiset(s)[x] <= 1 {
        assert multiset(s)[s[0]] <= 1;
        assert multiset(s[1..])[s[0]] == 0;
        forall x ensures multiset(s[1..])[x] <= 1 {
          assert multiset(s)[x] <= 1;
        }
        assert Distinct(s[1..]);
        forall i, j | 0 <= i < j < |s| ensures s[i] != s[j] {
          if i == 0 {
            assert s[j] in s[1..];
          } else {
            assert s[1..][i - 1] == s[i] && s[1..][j - 1] == s[j];
          }
        }
      }
    }
  }

  /** Entries taken from a sequence without repeats have no repeats: this
      covers a rearrangement and any hand dealt from it. */
  lemma DistinctSubmultiset<T>(s: seq<T>, t: seq<T>)
    requires Distinct(s) && multiset(t) <= multiset(s)
    ensures Distinct(t)
  {
    DistinctMultiset(s);
    DistinctMultiset(t);
    forall x ensures multiset(t)[x] <= 1 {
      assert multiset(t)[x] <= multiset(s)[x];
    }
  }
  // ---------------------------------------------------------------------------
  // Swap indices drawn from the `SeededRandom` generator
  // ---------------------------------------------------------------------------

  /** The swap indices `Math.floor(random.next() * (i + 1))` for i = top down
      to 1, the generator starting in state s. */
  function LcgSwapIndices(s: int, top: int): (js: seq<int>)
    ensures |js| == if top > 0 then top else 0
    decreases top
  {
    if top <= 0 then []
    else
      var w := LcgStep(s);
      [LcgScale(w, top + 1)] + LcgSwapIndices(w, top - 1)
  }

  /** Every swap index lies in [0, i] exactly when the first state is not
      negative, which holds for every seed from -5 up. */
  lemma {:induction false} LcgSwapIndicesInRange(s: int, top: int)
    requires top >= 1
    ensures InRange(LcgSwapIndices(s, top), top) <==> LcgStep(s) >= 0
    ensures s >= -5 ==> LcgStep(s) >= 0
    decreases top
  {
    var w := LcgStep(s);
    var js := LcgSwapIndices(s, top);
    LcgScaleBelow(s, top + 1);
    assert js[0] == LcgScale(w, top + 1);
    if w >= 0 && top > 1 {
      LcgSwapIndicesInRange(w, top - 1);
      LcgScaleBelow(w, top);
      var rest := LcgSwapIndices(w, top - 1);
      forall k | 0 <= k < |js| ensures 0 <= js[k] <= top - k {
        if k > 0 {
          assert js[k] == rest[k - 1];
        }
      }
    }
  }

  /** The loop from `top` has used the first top - i swap indices, all in
      range, and the generator, now in state v after top - i steps, will draw
      the remaining ones. */
  ghost predicate LcgDrawn(seed: int, top: int, done: seq<int>, v: int, i: int) {
    0 <= i <= top && |done| == top - i && v == LcgAfter(seed, top - i)
    && done + LcgSwapIndices(v, i) == LcgSwapIndices(seed, top)
    && InRange(done, top)
  }

  /** One pass of the loop: the index drawn is at most i; a negative one shows
      that the swap indices are out of range, any other one extends the
      indices used. */
  lemma LcgShuffleStep(seed: int, top: int, done: seq<int>, v: int, i: int)
    requires 1 <= i && LcgDrawn(seed, top, done, v, i)
    ensures |done| == top - i && InRange(done, top)
    ensures var w := LcgStep(v); var j := LcgScale(w, i + 1);
      && j <= i
      && (j < 0 ==> !InRange(LcgSwapIndices(seed, top), top))
      && (j >= 0 ==> LcgDrawn(seed, top, done + [j], w, i - 1))
  {
    var w := LcgStep(v);
    var j := LcgScale(w, i + 1);
    LcgNextIndex(seed, top, done, v, i);
    if j >= 0 {
      InRangeSnoc(done, top, j);
    }
  }

  /** The index drawn from state v is the next swap index. */
  lemma LcgNextIndex(seed: int, top: int, done: seq<int>, v: int, i: int)
    requires 1 <= i <= top && |done| == top - i
    requires done + LcgSwapIndices(v, i) == LcgSwapIndices(seed, top)
    ensures var w := LcgStep(v); var j := LcgScale(w, i + 1);
      && j == LcgSwapIndices(seed, top)[|done|] && j <= i
      && (done + [j]) + LcgSwapIndices(w, i - 1) == LcgSwapIndices(seed, top)
  {
    var w := LcgStep(v);
    var j := LcgScale(w, i + 1);
    LcgScaleBelow(v, i + 1);
    assert LcgSwapIndices(v, i) == [j] + LcgSwapIndices(w, i - 1);
    assert (done + [j]) + LcgSwapIndices(w, i - 1) == done + LcgSwapIndices(v, i);
  }

  /** At the end of the loop every index has been used. */
  lemma LcgDrawnAll(seed: int, top: int, done: seq<int>, v: int)
    requires LcgDrawn(seed, top, done, v, 0)
    ensures done == LcgSwapIndices(seed, top) && InRange(done, top)
    ensures v == LcgAfter(seed, top)
  {
    assert done + [] == done;
  }
}
