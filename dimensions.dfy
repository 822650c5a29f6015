/**
 * The dimension policy of the compressor (`calculate_new_dimensions`): an
 * image that fits within `maxSize` on both sides keeps its size; otherwise
 * both sides are scaled by the same ratio, rounded, and bumped up to even.
 */
module Dimensions {
  import opened Wrappers
  import opened Rounding

  datatype Size = Size(width: int, height: int)

  /** Python raises ZeroDivisionError when the ratio divides by a zero side. */
  datatype DimensionError = ZeroDivision

  predicate FitsWithin(width: int, height: int, maxSize: int)
  {
    width <= maxSize && height <= maxSize
  }

  /** Python's `min(a, b)`: the first argument unless the second is smaller. */
  function Min(a: real, b: real): (m: real)
    ensures m <= a && m <= b
    ensures m == a || m == b
  {
    if b < a then b else a
  }

  /** The common scale factor `min(max_size / width, max_size / height)`. */
  function Ratio(width: nat, height: nat, maxSize: int): (ratio: real)
    requires width > 0 && height > 0
    ensures ratio <= maxSize as real / width as real && ratio <= maxSize as real / height as real
    ensures ratio == maxSize as real / width as real || ratio == maxSize as real / height as real
    ensures maxSize > 0 ==> ratio > 0.0
  {
    Min(maxSize as real / width as real, maxSize as real / height as real)
  }

  /** `n + n % 2`: an odd value goes up to the next even one (Python's `%` by 2 equals Dafny's here). */
  function MakeEven(n: int): (e: int)
    ensures e % 2 == 0
    ensures n <= e <= n + 1
    ensures n % 2 == 0 ==> e == n
  {
    n + n % 2
  }

  /** One side scaled by `ratio`, rounded half-to-even and made even. */
  function ScaleSide(side: nat, ratio: real): (d: int)
    ensures d % 2 == 0
    ensures RoundHalfEven(side as real * ratio) <= d <= RoundHalfEven(side as real * ratio) + 1
  {
    MakeEven(RoundHalfEven(side as real * ratio))
  }

  function CalculateNewDimensions(width: nat, height: nat, maxSize: int): (r: Result<Size, DimensionError>)
    ensures r.Failure? <==> !FitsWithin(width, height, maxSize) && (width == 0 || height == 0)
    ensures FitsWithin(width, height, maxSize) ==> r == Success(Size(width, height))
    ensures r.Success? && !FitsWithin(width, height, maxSize) ==>
              r.value.width % 2 == 0 && r.value.height % 2 == 0
  {
    if FitsWithin(width, height, maxSize) then
      Success(Size(width, height))
    else if width == 0 || height == 0 then
      Failure(ZeroDivision)
    else
      var ratio := Ratio(width, height, maxSize);
      Success(Size(ScaleSide(width, ratio), ScaleSide(height, ratio)))
  }

  /**
   * Unfolding step for the lemmas below: outside the bound, with no zero
   * side, both sides go through `ScaleSide` with the common ratio.
   */
  lemma ScalingBranch(width: nat, height: nat, maxSize: int)
    requires !FitsWithin(width, height, maxSize) && width > 0 && height > 0
    ensures var ratio := Ratio(width, height, maxSize);
            CalculateNewDimensions(width, height, maxSize) == Success(Size(ScaleSide(width, ratio), ScaleSide(height, ratio)))
  {
  }

  /** In the scaling branch each side is its rounded scaled value, or one more. */
  lemma ScaledSidesBracketRounding(width: nat, height: nat, maxSize: int)
    requires !FitsWithin(width, height, maxSize) && width > 0 && height > 0
    ensures var r := CalculateNewDimensions(width, height, maxSize).value;
            var ratio := Ratio(width, height, maxSize);
            && RoundHalfEven(width as real * ratio) <= r.width <= RoundHalfEven(width as real * ratio) + 1
            && RoundHalfEven(height as real * ratio) <= r.height <= RoundHalfEven(height as real * ratio) + 1
  {
    ScalingBranch(width, height, maxSize);
  }

  /** Each scaled side lies within 3/2 of the exact proportional length. */
  lemma ScaledSidesNearExact(width: nat, height: nat, maxSize: int)
    requires !FitsWithin(width, height, maxSize) && width > 0 && height > 0
    ensures var r := CalculateNewDimensions(width, height, maxSize).value;
            var ratio := Ratio(width, height, maxSize);
            && Dist(r.width, width as real * ratio) <= 1.5
            && Dist(r.height, height as real * ratio) <= 1.5
  {
    var ratio := Ratio(width, height, maxSize);
    ScalingBranch(width, height, maxSize);
  }

  /** Scaling a side by `maxSize / side` gives back `maxSize` exactly. */
  lemma ScaleByOwnRatio(side: nat, maxSize: int)
    requires side > 0
    ensures side as real * (maxSize as real / side as real) == maxSize as real
  {
  }

  /**
   * With a positive bound, the longer side (both, for a square) becomes
   * `maxSize` made even: `maxSize + 1` when `maxSize` is odd.
   */
  lemma LimitingSideHitsBound(width: nat, height: nat, maxSize: int)
    requires !FitsWithin(width, height, maxSize) && width > 0 && height > 0 && maxSize > 0
    ensures var r := CalculateNewDimensions(width, height, maxSize).value;
            && (width >= height ==> r.width == maxSize + maxSize % 2)
            && (height >= width ==> r.height == maxSize + maxSize % 2)
  {
    ScalingBranch(width, height, maxSize);
    if width >= height {
      WidthLimitsRatio(width, height, maxSize);
    }
    if height >= width {
      HeightLimitsRatio(width, height, maxSize);
    }
  }

  lemma WidthLimitsRatio(width: nat, height: nat, maxSize: int)
    requires width >= height > 0 && maxSize > 0
    ensures ScaleSide(width, Ratio(width, height, maxSize)) == maxSize + maxSize % 2
  {
    var m := maxSize as real;
    DivideByLarger(m, height as real, width as real);
    assert Ratio(width, height, maxSize) == m / width as real;
    ScaleByOwnRatio(width, maxSize);
    OwnRatioGivesBound(width, m / width as real, maxSize);
  }

  lemma HeightLimitsRatio(width: nat, height: nat, maxSize: int)
    requires height >= width > 0 && maxSize > 0
    ensures ScaleSide(height, Ratio(width, height, maxSize)) == maxSize + maxSize % 2
  {
    var m := maxSize as real;
    DivideByLarger(m, width as real, height as real);
    assert Ratio(width, height, maxSize) == m / height as real;
    ScaleByOwnRatio(height, maxSize);
    OwnRatioGivesBound(height, m / height as real, maxSize);
  }

  /** A side whose exact scaled length is `maxSize` comes out as `maxSize` made even. */
  lemma OwnRatioGivesBound(side: nat, ratio: real, maxSize: int)
    requires side as real * ratio == maxSize as real
    ensures ScaleSide(side, ratio) == maxSize + maxSize % 2
  {
    RoundHalfEvenOfInteger(maxSize);
  }

  /** With a positive bound, no scaled side is negative or exceeds `maxSize` made even. */
  lemma ScaledSidesWithinEvenBound(width: nat, height: nat, maxSize: int)
    requires !FitsWithin(width, height, maxSize) && width > 0 && height > 0 && maxSize > 0
    ensures var r := CalculateNewDimensions(width, height, maxSize).value;
            && 0 <= r.width <= maxSize + maxSize % 2
            && 0 <= r.height <= maxSize + maxSize % 2
  {
    var m := maxSize as real;
    var ratio := Ratio(width, height, maxSize);
    ScalingBranch(width, height, maxSize);
    assert 0.0 <= ratio <= m / width as real && ratio <= m / height as real;
    ScaledSideWithinBound(width, ratio, maxSize);
    ScaledSideWithinBound(height, ratio, maxSize);
  }

  /** Dividing a non-negative quantity by the larger side gives the smaller quotient. */
  lemma DivideByLarger(m: real, small: real, large: real)
    requires m >= 0.0 && 0.0 < small <= large
    ensures m / large <= m / small
  {
  }

  lemma ScaledSideWithinBound(side: nat, ratio: real, maxSize: int)
    requires side > 0 && maxSize > 0 && 0.0 <= ratio <= maxSize as real / side as real
    ensures 0 <= ScaleSide(side, ratio) <= maxSize + maxSize % 2
  {
    var x := side as real * ratio;
    assert 0.0 <= x <= maxSize as real by {
      assert x <= side as real * (maxSize as real / side as real);
      ScaleByOwnRatio(side, maxSize);
    }
    RoundHalfEvenOfInteger(0);
    RoundHalfEvenOfInteger(maxSize);
    RoundHalfEvenMonotone(0.0, x);
    RoundHalfEvenMonotone(x, maxSize as real);
  }

  /**
   * With a positive bound the ratio is below one, so no side grows by more
   * than one pixel, and a side grows only when it is odd and rounding kept it.
   */
  lemma ScaledSidesGrowAtMostOne(width: nat, height: nat, maxSize: int)
    requires !FitsWithin(width, height, maxSize) && width > 0 && height > 0 && maxSize > 0
    ensures var r := CalculateNewDimensions(width, height, maxSize).value;
            && r.width <= width + 1 && (r.width > width ==> width % 2 == 1)
            && r.height <= height + 1 && (r.height > height ==> height % 2 == 1)
  {
    var ratio := Ratio(width, height, maxSize);
    ScalingBranch(width, height, maxSize);
    assert ratio < 1.0 by {
      if width > maxSize {
        DivideBelowOne(maxSize, width);
      } else {
        DivideBelowOne(maxSize, height);
      }
    }
    SideShrinks(width, ratio);
    SideShrinks(height, ratio);
  }

  lemma DivideBelowOne(maxSize: int, side: nat)
    requires 0 < maxSize < side
    ensures maxSize as real / side as real < 1.0
  {
  }

  lemma SideShrinks(side: nat, ratio: real)
    requires side > 0 && 0.0 <= ratio < 1.0
    ensures ScaleSide(side, ratio) <= side + 1
    ensures ScaleSide(side, ratio) > side ==> side % 2 == 1
  {
    ScaleBelowOne(side as real, ratio);
    RoundHalfEvenMonotone(side as real * ratio, side as real);
    RoundHalfEvenOfInteger(side);
  }

  lemma ScaleBelowOne(a: real, ratio: real)
    requires a >= 0.0 && 0.0 <= ratio <= 1.0
    ensures a * ratio <= a
  {
    assert a - a * ratio == a * (1.0 - ratio);
  }

  /** 8K UHD with the default bound halves exactly. */
  lemma ExampleHalving()
    ensures CalculateNewDimensions(7680, 4320, 3840) == Success(Size(3840, 2160))
  {
    assert Ratio(7680, 4320, 3840) == 0.5;
  }

  /** An odd scaled short side is bumped up to even. */
  lemma ExampleOddSideMadeEven()
    ensures CalculateNewDimensions(4001, 2001, 2000) == Success(Size(2000, 1000))
  {
    var ratio := Ratio(4001, 2001, 2000);
    assert ratio == 2000.0 / 4001.0;
    assert 1000.0 <= 2001.0 * ratio < 1000.5;
  }

  /** A small image is returned as it is. */
  lemma ExampleNoUpscale()
    ensures CalculateNewDimensions(100, 100, 3840) == Success(Size(100, 100))
  {
  }

  /** A 4000x3000 image under the default bound keeps its 4:3 shape. */
  lemma ExampleFourByThree()
    ensures CalculateNewDimensions(4000, 3000, 3840) == Success(Size(3840, 2880))
  {
    assert Ratio(4000, 3000, 3840) == 0.96;
  }

  /** An odd bound lets the long side come out one above it. */
  lemma ExampleOddBoundExceeded()
    ensures CalculateNewDimensions(3001, 1000, 2999) == Success(Size(3000, 1000))
  {
    var ratio := Ratio(3001, 1000, 2999);
    assert ratio == 2999.0 / 3001.0;
    assert 999.0 <= 1000.0 * ratio < 999.5;
  }

  /** The even bump can enlarge an odd short side by one pixel. */
  lemma ExampleShortSideGrows()
    ensures CalculateNewDimensions(10000, 3, 9999) == Success(Size(10000, 4))
  {
    var ratio := Ratio(10000, 3, 9999);
    assert ratio == 0.9999;
  }

  /** Out of bound, yet the policy returns the original size: no resize follows. */
  lemma ExampleOutOfBoundKeepsSize()
    ensures CalculateNewDimensions(4, 2, 3) == Success(Size(4, 2))
  {
    assert Ratio(4, 2, 3) == 0.75;
  }

  /** A very thin image loses its short side entirely. */
  lemma ExampleShortSideVanishes()
    ensures CalculateNewDimensions(10000, 1, 100) == Success(Size(100, 0))
  {
    assert Ratio(10000, 1, 100) == 0.01;
  }

  /** A zero side outside the bound divides by zero. */
  lemma ExampleZeroSide()
    ensures CalculateNewDimensions(0, 5000, 3840) == Failure(ZeroDivision)
  {
  }
}
