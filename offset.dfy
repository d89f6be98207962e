/**
 * The scroll offset of the lyric view: the measured heights of the lines
 * before the current one, added up. The source computes it as
 * `lineHeights.slice(0, currentIndex).reduce((sum, h) => sum + h, 0) || 0`,
 * so the end of the slice follows the ECMAScript rules for `Array.prototype.slice`:
 * an end past the length is clamped to the length and a negative end counts
 * from the back.
 */
module LyricOffset {

  /** The sum of the heights, folded from the left as `reduce` with initial value 0 does. */
  function Sum(s: seq<real>): (r: real)
  {
    if |s| == 0 then 0.0 else Sum(s[..|s| - 1]) + s[|s| - 1]
  }

  /** A table of `n` unmeasured lines, as `new Array(n).fill(0)` builds it. */
  function Zeros(n: nat): (z: seq<real>)
    ensures |z| == n
    ensures forall k :: 0 <= k < n ==> z[k] == 0.0
  {
    seq(n, _ => 0.0)
  }

  ghost predicate NonNegative(s: seq<real>)
  {
    forall k :: 0 <= k < |s| ==> s[k] >= 0.0
  }

  /**
   * Where a `slice` argument lands in a sequence of length `len`: a negative
   * argument counts back from the end, and the result is clamped to [0, len].
   */
  function RelativeIndex(len: nat, k: int): (r: nat)
    ensures r <= len
  {
    if k < 0 then (if len + k < 0 then 0 else len + k)
    else if k < len then k else len
  }

  /** `s.slice(start, end)`: empty when the clamped start is not before the clamped end. */
  function Slice<T>(s: seq<T>, start: int, end: int): (r: seq<T>)
    ensures |r| <= |s|
  {
    var from, to := RelativeIndex(|s|, start), RelativeIndex(|s|, end);
    if from < to then s[from..to] else []
  }

  /**
   * The offset the view scrolls to for `currentIndex`. The trailing `|| 0` of
   * the source only replaces NaN (and 0 by 0); heights here are real numbers,
   * so it leaves the sum as it is.
   */
  function Offset(heights: seq<real>, currentIndex: int): (r: real)
    ensures r == Sum(heights[..RelativeIndex(|heights|, currentIndex)])
  {
    Sum(Slice(heights, 0, currentIndex))
  }

  // ---------------------------------------------------------------------
  // Sums

  lemma {:induction false} SumAppend(a: seq<real>, b: seq<real>)
    ensures Sum(a + b) == Sum(a) + Sum(b)
  {
    if |b| == 0 {
      assert a + b == a;
    } else {
      var b' := b[..|b| - 1];
      assert (a + b)[..|a + b| - 1] == a + b';
      SumAppend(a, b');
    }
  }

  lemma SumPrefixStep(s: seq<real>, i: nat)
    requires i < |s|
    ensures Sum(s[..i + 1]) == Sum(s[..i]) + s[i]
  {
    assert s[..i + 1][..i] == s[..i];
  }

  lemma {:induction false} SumOfZeros(n: nat)
    ensures Sum(Zeros(n)) == 0.0
  {
    if n > 0 {
      assert Zeros(n)[..n - 1] == Zeros(n - 1);
      SumOfZeros(n - 1);
    }
  }

  lemma {:induction false} SumNonNegative(s: seq<real>)
    requires NonNegative(s)
    ensures Sum(s) >= 0.0
  {
    if |s| > 0 {
      SumNonNegative(s[..|s| - 1]);
    }
  }

  /** Replacing one entry changes the sum by exactly the difference. */
  lemma SumUpdate(s: seq<real>, k: nat, x: real)
    requires k < |s|
    ensures Sum(s[k := x]) == Sum(s) - s[k] + x
  {
    var t := s[k := x];
    assert s == s[..k] + [s[k]] + s[k + 1..];
    assert t == s[..k] + [x] + s[k + 1..];
    SumAppend(s[..k] + [s[k]], s[k + 1..]);
    SumAppend(s[..k], [s[k]]);
    SumAppend(s[..k] + [x], s[k + 1..]);
    SumAppend(s[..k], [x]);
    assert [x][..0] == [] && [s[k]][..0] == [];
  }

  // ---------------------------------------------------------------------
  // The offset, region by region of `currentIndex`

  /** A slice that starts at 0 is always the prefix up to the clamped end. */
  lemma SliceFromStart<T>(s: seq<T>, end: int)
    ensures Slice(s, 0, end) == s[..RelativeIndex(|s|, end)]
  {
  }

  /** For 0 <= i <= |heights| the offset is the sum of the heights of lines 0 .. i-1. */
  lemma OffsetInRange(heights: seq<real>, i: int)
    requires 0 <= i <= |heights|
    ensures Offset(heights, i) == Sum(heights[..i])
  {
  }

  /** Before the first line nothing is above it. */
  lemma OffsetAtFirstLine(heights: seq<real>)
    ensures Offset(heights, 0) == 0.0
  {
  }

  /** Past the end, `slice` clamps to the length: the offset is the whole table. */
  lemma OffsetBeyondEnd(heights: seq<real>, i: int)
    requires i > |heights|
    ensures Offset(heights, i) == Sum(heights)
  {
    SliceFromStart(heights, i);
    assert heights[..|heights|] == heights;
  }

  /**
   * Index -1 ("no line active yet") does not give 0: `slice(0, -1)` drops only
   * the last entry, so the view scrolls to the sum of every height but the last.
   */
  lemma OffsetBeforeFirstLine(heights: seq<real>)
    requires |heights| >= 1
    ensures Offset(heights, -1) == Sum(heights) - heights[|heights| - 1]
  {
  }

  /** A negative index -m with m <= |heights| sums all but the last m heights. */
  lemma OffsetNegative(heights: seq<real>, i: int)
    requires -|heights| <= i < 0
    ensures Offset(heights, i) == Sum(heights[..|heights| + i])
  {
  }

  /** A negative index at or below -|heights| leaves nothing in the slice. */
  lemma OffsetFarNegative(heights: seq<real>, i: int)
    requires i <= -|heights|
    ensures Offset(heights, i) == 0.0
  {
  }

  /** Moving on by one line adds the height of the line left behind. */
  lemma OffsetStep(heights: seq<real>, i: int)
    requires 0 <= i < |heights|
    ensures Offset(heights, i + 1) == Offset(heights, i) + heights[i]
  {
    OffsetInRange(heights, i);
    OffsetInRange(heights, i + 1);
    SumPrefixStep(heights, i);
  }

  /** With no height measured yet, every index scrolls to 0. */
  lemma OffsetOfUnmeasured(n: nat, i: int)
    ensures Offset(Zeros(n), i) == 0.0
  {
    var s := Slice(Zeros(n), 0, i);
    SliceFromStart(Zeros(n), i);
    assert s == Zeros(|s|);
    SumOfZeros(|s|);
  }

  /** Heights are never negative, and then neither is any offset. */
  lemma OffsetNonNegative(heights: seq<real>, i: int)
    requires NonNegative(heights)
    ensures Offset(heights, i) >= 0.0
  {
    var s := Slice(heights, 0, i);
    SliceFromStart(heights, i);
    assert NonNegative(s);
    SumNonNegative(s);
  }

  /** Over 0 .. |heights| the offset does not decrease as the index grows. */
  lemma {:induction false} OffsetMonotone(heights: seq<real>, i: int, j: int)
    requires NonNegative(heights)
    requires 0 <= i <= j <= |heights|
    ensures Offset(heights, i) <= Offset(heights, j)
  {
    if i < j {
      OffsetMonotone(heights, i, j - 1);
      OffsetStep(heights, j - 1);
    }
  }

  /**
   * A layout report for line k moves exactly the offsets whose slice covers
   * line k, and moves them by the change in that line's height.
   */
  lemma OffsetAfterReport(heights: seq<real>, k: nat, h: real, i: int)
    requires k < |heights|
    ensures Offset(heights[k := h], i)
         == Offset(heights, i) + (if k < RelativeIndex(|heights|, i) then h - heights[k] else 0.0)
  {
    var end := RelativeIndex(|heights|, i);
    SliceFromStart(heights, i);
    SliceFromStart(heights[k := h], i);
    if k < end {
      assert heights[k := h][..end] == heights[..end][k := h];
      SumUpdate(heights[..end], k, h);
    } else {
      assert heights[k := h][..end] == heights[..end];
    }
  }
}
