/** The level meter of `mic_callback`: each input block's mean square enters a
    six-entry window (drop the oldest, append the newest) and the level is
    `10*log10(mean(window) + 1e-12)` dB. */
module LevelMeter {
  import opened PyMath

  /** Length of `record_blocks`. */
  const RECORD_BLOCKS_LEN: nat := 6
  /** The 1e-12 added before the logarithm, so that silence gives a finite level. */
  const LEVEL_EPSILON: real := 0.000000000001

  function Sum(s: seq<real>): real
  {
    if s == [] then 0.0 else Sum(s[..|s| - 1]) + s[|s| - 1]
  }

  /** numpy `mean` of a non-empty sequence. */
  function Mean(s: seq<real>): real
    requires |s| > 0
  {
    Sum(s) / |s| as real
  }

  function SumSquares(s: seq<real>): (r: real)
    ensures r >= 0.0
  {
    if s == [] then 0.0
    else
      var x := s[|s| - 1];
      assert x * x >= 0.0 by { if x < 0.0 { assert x * x == (-x) * (-x); } }
      SumSquares(s[..|s| - 1]) + x * x
  }

  /** `mean(square(block))`: the mean power of one input block; never negative. */
  function MeanSquare(block: seq<real>): (m: real)
    requires |block| > 0
    ensures m >= 0.0
  {
    SumSquares(block) / |block| as real
  }

  /** `record_blocks.pop(0)` followed by `record_blocks.append(m)`: the window
      keeps its length, every entry moves one place towards the front and `m`
      becomes the last entry. */
  function Slide(window: seq<real>, m: real): (w: seq<real>)
    requires |window| > 0
    ensures |w| == |window| && w[|w| - 1] == m
    ensures forall i :: 0 <= i < |window| - 1 ==> w[i] == window[i + 1]
  {
    window[1..] + [m]
  }

  /** The window after sliding in the block powers `ms`, oldest first. */
  function SlideAll(window: seq<real>, ms: seq<real>): (w: seq<real>)
    requires |window| > 0
    ensures |w| == |window|
    decreases |ms|
  {
    if ms == [] then window else SlideAll(Slide(window, ms[0]), ms[1..])
  }

  /** The window always holds the last |window| entries of everything it has
      seen: its starting contents followed by the slid-in block powers. */
  lemma {:induction false} SlideAllIsSuffix(window: seq<real>, ms: seq<real>)
    requires |window| > 0
    ensures SlideAll(window, ms) == (window + ms)[|ms|..]
    decreases |ms|
  {
    if ms != [] {
      var w1 := Slide(window, ms[0]);
      SlideAllIsSuffix(w1, ms[1..]);
      assert w1 + ms[1..] == (window + ms)[1..];
    }
  }

  /** Once as many blocks as the window holds have arrived, the window holds
      exactly their powers: nothing older survives. */
  lemma WindowForgetsOlderBlocks(window: seq<real>, ms: seq<real>)
    requires |window| > 0 && |ms| >= |window|
    ensures SlideAll(window, ms) == ms[|ms| - |window|..]
  {
    SlideAllIsSuffix(window, ms);
    assert (window + ms)[|ms|..] == ms[|ms| - |window|..];
  }

  /** `self.db` for a window of block powers. */
  function Level(lib: MathLib, window: seq<real>): real
    requires |window| > 0
  {
    10.0 * lib.log10(Mean(window) + LEVEL_EPSILON)
  }

  lemma {:induction false} SumOfConstant(s: seq<real>, m: real)
    requires forall i :: 0 <= i < |s| ==> s[i] == m
    ensures Sum(s) == |s| as real * m
  {
    if s != [] {
      SumOfConstant(s[..|s| - 1], m);
      assert (|s| - 1) as real * m + m == |s| as real * m;
    }
  }

  /** A window whose entries all equal `m` reads `10*log10(m + 1e-12)`. */
  lemma LevelOfSteadyWindow(lib: MathLib, window: seq<real>, m: real)
    requires |window| > 0
    requires forall i :: 0 <= i < |window| ==> window[i] == m
    ensures Level(lib, window) == 10.0 * lib.log10(m + LEVEL_EPSILON)
  {
    SumOfConstant(window, m);
    assert Mean(window) == m;
  }

  lemma {:induction false} SumMonotone(s: seq<real>, t: seq<real>)
    requires |s| == |t|
    requires forall i :: 0 <= i < |s| ==> s[i] <= t[i]
    ensures Sum(s) <= Sum(t)
  {
    if s != [] {
      SumMonotone(s[..|s| - 1], t[..|t| - 1]);
    }
  }

  lemma {:induction false} SumNonNegative(s: seq<real>)
    requires forall i :: 0 <= i < |s| ==> 0.0 <= s[i]
    ensures 0.0 <= Sum(s)
  {
    if s != [] {
      SumNonNegative(s[..|s| - 1]);
    }
  }

  /** More power in every slot of the window never gives a lower level. */
  lemma LevelMonotone(lib: MathLib, w1: seq<real>, w2: seq<real>)
    requires lib.Sound()
    requires |w1| == |w2| > 0
    requires forall i :: 0 <= i < |w1| ==> 0.0 <= w1[i] <= w2[i]
    ensures Level(lib, w1) <= Level(lib, w2)
  {
    SumMonotone(w1, w2);
    SumNonNegative(w1);
    var n := |w1| as real;
    assert Sum(w1) / n <= Sum(w2) / n;
    assert 0.0 <= Sum(w1) / n;
    assert lib.log10(Mean(w1) + LEVEL_EPSILON) <= lib.log10(Mean(w2) + LEVEL_EPSILON);
  }

  /** The level depends only on the last six blocks: two windows that have
      both seen the same six or more latest blocks read the same. */
  lemma LevelForgetsOlderBlocks(lib: MathLib, w1: seq<real>, w2: seq<real>, ms: seq<real>)
    requires |w1| == |w2| == RECORD_BLOCKS_LEN
    requires |ms| >= RECORD_BLOCKS_LEN
    ensures Level(lib, SlideAll(w1, ms)) == Level(lib, SlideAll(w2, ms))
  {
    WindowForgetsOlderBlocks(w1, ms);
    WindowForgetsOlderBlocks(w2, ms);
  }
}
