/**
 * The resampling of spec_convol and spec_convol_R: a spectrum is moved onto a grid
 * whose spacing is a constant fraction of the local resolution element, convolved there
 * with a Gaussian of constant width, and interpolated back onto its own wavelengths.
 * The FFT convolution is a parameter (`convolve`, taking the flux and the kernel's
 * standard deviation in grid steps); the grid and both interpolations are modelled.
 */
module Resampling {
  import opened Wrappers
  import opened Conversions

  /** The resolving power: one value for all wavelengths, or an array broadcast against wave. */
  datatype ResolvingPower = Constant(r: real) | PerPoint(rs: seq<real>)

  /** Where the source raises (ValueError, ZeroDivisionError) or divides by zero into inf/NaN. */
  datatype ConvolError =
    | EmptySpectrum        // np.min of an empty array
    | ShapeMismatch        // arrays that do not broadcast, or np.interp on unequal lengths
    | ZeroResolvingPower   // wave / R with some R == 0
    | ZeroSpacing          // fwhm / dw_min with dw_min == 0
    | ZeroVelocity         // c / (dv * 1e3) with dv == 0

  /** The FWHM-to-sigma factor of the Gaussian kernel, written as a literal in the source. */
  const FWHM_PER_SIGMA: real := 2.3548

  function Abs(x: real): real {
    if x < 0.0 then -x else x
  }

  /** The smallest element of a non-empty sequence (np.min). */
  function MinOf(s: seq<real>): (m: real)
    requires |s| > 0
    ensures forall i | 0 <= i < |s| :: m <= s[i]
    ensures exists i | 0 <= i < |s| :: m == s[i]
  {
    if |s| == 1 then s[0]
    else
      var rest := MinOf(s[1..]);
      assert forall i | 1 <= i < |s| :: s[1..][i - 1] == s[i];
      if s[0] <= rest then s[0] else rest
  }

  /** The sum of a sequence. */
  function Sum(s: seq<real>): real {
    if |s| == 0 then 0.0 else Sum(s[..|s| - 1]) + s[|s| - 1]
  }

  // ---------------------------------------------------------------------------
  // The spacing of the input: dws = |wave - np.roll(wave, 1)|
  // ---------------------------------------------------------------------------

  /** np.roll(wave, 1): the last element moved to the front. */
  function Roll(wave: seq<real>): (r: seq<real>)
    requires |wave| > 0
    ensures |r| == |wave|
    ensures r[0] == wave[|wave| - 1]
    ensures forall i | 1 <= i < |wave| :: r[i] == wave[i - 1]
  {
    [wave[|wave| - 1]] + wave[..|wave| - 1]
  }

  function Spacings(wave: seq<real>): (dws: seq<real>)
    requires |wave| > 0
    ensures |dws| == |wave|
  {
    var rolled := Roll(wave);
    seq(|wave|, i requires 0 <= i < |wave| => Abs(wave[i] - rolled[i]))
  }

  predicate StrictlyIncreasing(s: seq<real>) {
    forall i, j | 0 <= i < j < |s| :: s[i] < s[j]
  }

  /**
   * On increasing wavelengths the wrap-around entry never undercuts the gaps, so dw_min
   * is the minimum of the gaps between consecutive points alone, and it is positive.
   */
  lemma SpacingsOfIncreasing(wave: seq<real>)
    requires StrictlyIncreasing(wave) && |wave| >= 2
    ensures MinOf(Spacings(wave)) == MinOf(Spacings(wave)[1..])
    ensures MinOf(Spacings(wave)) > 0.0
  {
    var dws := Spacings(wave);
    SpacingEntries(wave);
    assert dws[1] <= dws[0];
    MinOfLargerHead(dws);
    assert forall i | 0 <= i < |dws| :: dws[i] > 0.0;
    MinOfPositive(dws);
  }

  /**
   * On increasing wavelengths, entry i >= 1 is the gap to the previous point and the
   * wrap-around entry 0 is the whole span, which is no smaller than any gap.
   */
  lemma SpacingEntries(wave: seq<real>)
    requires StrictlyIncreasing(wave) && |wave| >= 2
    ensures Spacings(wave)[0] == wave[|wave| - 1] - wave[0] > 0.0
    ensures forall i | 1 <= i < |wave| :: 0.0 < Spacings(wave)[i] == wave[i] - wave[i - 1] <= Spacings(wave)[0]
  {
    var dws := Spacings(wave);
    IncreasingBetween(wave, 1);
    SpacingAt(wave, 0);
    forall i | 1 <= i < |wave| ensures 0.0 < dws[i] == wave[i] - wave[i - 1] <= dws[0] {
      IncreasingBetween(wave, i);
      SpacingAt(wave, i);
    }
  }

  /** The minimum of positive values is positive. */
  lemma MinOfPositive(s: seq<real>)
    requires |s| > 0 && forall i | 0 <= i < |s| :: s[i] > 0.0
    ensures MinOf(s) > 0.0
  {
    var k :| 0 <= k < |s| && MinOf(s) == s[k];
  }

  /** A point and its predecessor lie, in order, between the first and the last point. */
  lemma IncreasingBetween(wave: seq<real>, i: nat)
    requires StrictlyIncreasing(wave) && 1 <= i < |wave|
    ensures wave[0] <= wave[i - 1] < wave[i] <= wave[|wave| - 1]
    ensures wave[0] < wave[|wave| - 1]
  {
    if i - 1 > 0 {
      assert wave[0] < wave[i - 1];
    }
    if i < |wave| - 1 {
      assert wave[i] < wave[|wave| - 1];
    }
  }

  /** One entry of the spacing of increasing wavelengths. */
  lemma SpacingAt(wave: seq<real>, i: nat)
    requires |wave| >= 2 && i < |wave| && wave[0] < wave[|wave| - 1]
    requires i > 0 ==> wave[0] <= wave[i - 1] < wave[i] <= wave[|wave| - 1]
    ensures i == 0 ==> Spacings(wave)[0] == wave[|wave| - 1] - wave[0] > 0.0
    ensures i > 0 ==> 0.0 < Spacings(wave)[i] == wave[i] - wave[i - 1] <= wave[|wave| - 1] - wave[0]
  {
    var rolled := Roll(wave);
    assert Spacings(wave)[i] == Abs(wave[i] - rolled[i]);
  }

  /** A head no smaller than the second element does not change the minimum. */
  lemma MinOfLargerHead(s: seq<real>)
    requires |s| >= 2 && s[1] <= s[0]
    ensures MinOf(s) == MinOf(s[1..])
  {
    assert s[1..][0] == s[1];
  }

  // ---------------------------------------------------------------------------
  // Resolution element, sampling factor and grid steps
  // ---------------------------------------------------------------------------

  /** R broadcast against wave: a scalar or a one-element array applies to every point. */
  function Broadcast(rp: ResolvingPower, n: nat): (r: Result<seq<real>, ConvolError>)
    ensures r.Ok? ==> |r.value| == n
    ensures r.Err? <==> rp.PerPoint? && |rp.rs| != n && |rp.rs| != 1
    ensures rp.Constant? ==> r == Ok(seq(n, _ => rp.r))
    ensures rp.PerPoint? && |rp.rs| == n ==> r == Ok(rp.rs)
    ensures rp.PerPoint? && |rp.rs| == 1 ==> r.Ok? && forall i | 0 <= i < n :: r.value[i] == rp.rs[0]
  {
    match rp
    case Constant(v) => Ok(seq(n, _ => v))
    case PerPoint(rs) =>
      if |rs| == n then Ok(rs)
      else if |rs| == 1 then Ok(seq(n, _ => rs[0]))
      else Err(ShapeMismatch)
  }

  /** fwhm = wave / R: the width of the resolution element at each wavelength. */
  function Fwhm(wave: seq<real>, r: seq<real>): (fwhm: seq<real>)
    requires |r| == |wave| && forall i | 0 <= i < |r| :: r[i] != 0.0
    ensures |fwhm| == |wave|
    ensures forall i | 0 <= i < |wave| :: fwhm[i] * r[i] == wave[i]
  {
    seq(|wave|, i requires 0 <= i < |wave| => wave[i] / r[i])
  }

  /**
   * fwhm_s = max(2, min(fwhm / dw_min)): the poorest sampling of the resolution element
   * by the input spacing, but never below two points per element (Nyquist).
   */
  function SamplingFactor(fwhm: seq<real>, dwMin: real): (fwhmS: real)
    requires |fwhm| > 0 && dwMin != 0.0
    ensures fwhmS >= 2.0
    ensures forall i | 0 <= i < |fwhm| :: fwhmS >= 2.0 && (fwhmS == 2.0 || fwhmS <= fwhm[i] / dwMin)
    ensures fwhmS == 2.0 || exists i | 0 <= i < |fwhm| :: fwhmS == fwhm[i] / dwMin
    ensures exists i | 0 <= i < |fwhm| :: fwhmS >= fwhm[i] / dwMin
  {
    var sampling := seq(|fwhm|, i requires 0 <= i < |fwhm| => fwhm[i] / dwMin);
    var m := MinOf(sampling);
    assert forall i | 0 <= i < |fwhm| :: m <= sampling[i] && sampling[i] == fwhm[i] / dwMin;
    if 2.0 >= m then 2.0 else m
  }

  /** ds = fwhm / fwhm_s: the grid step at each point. */
  function Steps(fwhm: seq<real>, fwhmS: real): (ds: seq<real>)
    requires fwhmS >= 2.0
    ensures |ds| == |fwhm|
    ensures forall i | 0 <= i < |fwhm| :: ds[i] * fwhmS == fwhm[i]
  {
    seq(|fwhm|, i requires 0 <= i < |fwhm| => fwhm[i] / fwhmS)
  }

  /** A positive width divided by a factor of at least two is positive and at most half the width. */
  lemma DivideByAtLeastTwo(w: real, f: real)
    requires w > 0.0 && f >= 2.0
    ensures 0.0 < w / f <= w / 2.0
  {
    assert w / f * f == w;
    assert w / f * f >= w / f * 2.0;
  }

  /** For positive widths every step is positive and at most half its resolution element. */
  lemma StepsBounded(fwhm: seq<real>, dwMin: real)
    requires |fwhm| > 0 && dwMin != 0.0
    requires forall i | 0 <= i < |fwhm| :: fwhm[i] > 0.0
    ensures var ds := Steps(fwhm, SamplingFactor(fwhm, dwMin));
      forall i | 0 <= i < |fwhm| :: 0.0 < ds[i] <= fwhm[i] / 2.0
  {
    var fwhmS := SamplingFactor(fwhm, dwMin);
    var ds := Steps(fwhm, fwhmS);
    forall i | 0 <= i < |fwhm| ensures 0.0 < ds[i] <= fwhm[i] / 2.0 {
      assert ds[i] == fwhm[i] / fwhmS;
      DivideByAtLeastTwo(fwhm[i], fwhmS);
    }
  }

  /** Dividing w by at least w / d leaves at most d. */
  lemma QuotientBound(w: real, f: real, d: real)
    requires w > 0.0 && d > 0.0 && f > 0.0 && f >= w / d
    ensures w / f <= d
  {
    assert w / d * d == w;
    assert f * d >= w / d * d;
    assert w / f * f == w;
  }

  /** Some step is no wider than the finest spacing of the input. */
  lemma StepsReachFinestSpacing(fwhm: seq<real>, dwMin: real)
    requires |fwhm| > 0 && dwMin > 0.0
    requires forall i | 0 <= i < |fwhm| :: fwhm[i] > 0.0
    ensures var ds := Steps(fwhm, SamplingFactor(fwhm, dwMin));
      exists i | 0 <= i < |fwhm| :: ds[i] <= dwMin
  {
    var fwhmS := SamplingFactor(fwhm, dwMin);
    var ds := Steps(fwhm, fwhmS);
    var k :| 0 <= k < |fwhm| && fwhmS >= fwhm[k] / dwMin;
    assert ds[k] == fwhm[k] / fwhmS;
    QuotientBound(fwhm[k], fwhmS, dwMin);
  }

  /** wave_constfwhm = np.cumsum(ds) + np.min(wave). */
  function Grid(ds: seq<real>, start: real): (grid: seq<real>)
    ensures |grid| == |ds|
  {
    seq(|ds|, k requires 0 <= k < |ds| => Sum(ds[..k + 1]) + start)
  }

  /** np.cumsum(ds) + start computed as a running total, one grid point per step. */
  method CumulativeGrid(ds: seq<real>, start: real) returns (grid: seq<real>)
    ensures grid == Grid(ds, start)
  {
    grid := [];
    var total := 0.0;
    for k := 0 to |ds|
      invariant |grid| == k
      invariant total == Sum(ds[..k])
      invariant forall j | 0 <= j < k :: grid[j] == Sum(ds[..j + 1]) + start
    {
      assert ds[..k + 1][..k] == ds[..k];
      total := total + ds[k];
      grid := grid + [total + start];
    }
    assert ds[..|ds|] == ds;
  }

  /**
   * The grid starts one step above the start and advances by exactly one step per
   * point; with positive steps it is strictly increasing and stays above the start.
   */
  lemma GridSteps(ds: seq<real>, start: real)
    ensures |ds| > 0 ==> Grid(ds, start)[0] == start + ds[0]
    ensures forall k | 0 <= k < |ds| - 1 :: Grid(ds, start)[k + 1] - Grid(ds, start)[k] == ds[k + 1]
  {
    var grid := Grid(ds, start);
    if |ds| > 0 {
      assert ds[..1][..0] == [];
      assert Sum(ds[..1]) == Sum(ds[..1][..0]) + ds[0];
    }
    forall k | 0 <= k < |ds| - 1 ensures grid[k + 1] - grid[k] == ds[k + 1] {
      assert ds[..k + 2][..k + 1] == ds[..k + 1];
    }
  }

  lemma {:induction false} GridIncreasing(ds: seq<real>, start: real)
    requires forall k | 0 <= k < |ds| :: ds[k] > 0.0
    ensures StrictlyIncreasing(Grid(ds, start))
    ensures forall k | 0 <= k < |ds| :: Grid(ds, start)[k] > start
  {
    var grid := Grid(ds, start);
    GridSteps(ds, start);
    forall k | 0 <= k < |ds| ensures grid[k] > start {
      GridAboveStart(ds, start, k);
    }
    forall i, j | 0 <= i < j < |ds| ensures grid[i] < grid[j] {
      GridMonotone(ds, start, i, j);
    }
  }

  lemma {:induction false} GridAboveStart(ds: seq<real>, start: real, k: nat)
    requires k < |ds| && forall i | 0 <= i < |ds| :: ds[i] > 0.0
    ensures Grid(ds, start)[k] > start
    decreases k
  {
    GridSteps(ds, start);
    if k > 0 {
      GridAboveStart(ds, start, k - 1);
    }
  }

  lemma {:induction false} GridMonotone(ds: seq<real>, start: real, i: nat, j: nat)
    requires i < j < |ds| && forall k | 0 <= k < |ds| :: ds[k] > 0.0
    ensures Grid(ds, start)[i] < Grid(ds, start)[j]
    decreases j - i
  {
    GridSteps(ds, start);
    if i + 1 < j {
      GridMonotone(ds, start, i + 1, j);
    }
  }

  // ---------------------------------------------------------------------------
  // np.interp
  // ---------------------------------------------------------------------------

  /**
   * np.interp(x, xp, fp): fp[0] at or left of xp[0], the last value at or right of the last
   * knot, and in between the straight line over the first segment whose right knot
   * exceeds x (the segment holding x when xp is increasing, which np.interp expects and
   * does not check).
   */
  function Interp(x: real, xp: seq<real>, fp: seq<real>): real
    requires |xp| == |fp| > 0
  {
    if x <= xp[0] then fp[0]
    else if x >= xp[|xp| - 1] then fp[|fp| - 1]
    else InterpFrom(x, xp, fp, 0)
  }

  function InterpFrom(x: real, xp: seq<real>, fp: seq<real>, j: nat): real
    requires |xp| == |fp| && j + 1 < |xp| && x < xp[|xp| - 1]
    decreases |xp| - j
  {
    if x < xp[j + 1] then
      var dx := xp[j + 1] - xp[j];
      if dx == 0.0 then fp[j] else fp[j] + (x - xp[j]) * (fp[j + 1] - fp[j]) / dx
    else InterpFrom(x, xp, fp, j + 1)
  }

  /** On increasing knots the interpolant passes through every knot. */
  lemma InterpAtKnots(xp: seq<real>, fp: seq<real>, k: nat)
    requires |xp| == |fp| && k < |xp| && StrictlyIncreasing(xp)
    ensures Interp(xp[k], xp, fp) == fp[k]
  {
    if 0 < k < |xp| - 1 {
      InterpFromAtKnot(xp, fp, 0, k);
    }
  }

  lemma {:induction false} InterpFromAtKnot(xp: seq<real>, fp: seq<real>, j: nat, k: nat)
    requires |xp| == |fp| && j < k < |xp| - 1 && StrictlyIncreasing(xp)
    ensures InterpFrom(xp[k], xp, fp, j) == fp[k]
    decreases k - j
  {
    if j + 1 < k {
      InterpFromAtKnot(xp, fp, j + 1, k);
    }
  }

  /** The interpolant never leaves the range of the values it interpolates. */
  lemma InterpBounded(x: real, xp: seq<real>, fp: seq<real>, lo: real, hi: real)
    requires |xp| == |fp| > 0
    requires forall i | 0 <= i < |fp| :: lo <= fp[i] <= hi
    ensures lo <= Interp(x, xp, fp) <= hi
  {
    if xp[0] < x < xp[|xp| - 1] {
      InterpFromBounded(x, xp, fp, 0, lo, hi);
    }
  }

  /** np.interp on an array of points: the interpolant at each of them. */
  function InterpAll(xs: seq<real>, xp: seq<real>, fp: seq<real>): (ys: seq<real>)
    requires |xp| == |fp| > 0
    ensures |ys| == |xs|
    ensures forall k | 0 <= k < |xs| :: ys[k] == Interp(xs[k], xp, fp)
  {
    seq(|xs|, k requires 0 <= k < |xs| => Interp(xs[k], xp, fp))
  }

  /** Interpolating at many points stays within the range of the values interpolated. */
  lemma InterpAllBounded(xs: seq<real>, xp: seq<real>, fp: seq<real>, lo: real, hi: real)
    requires |xp| == |fp| > 0
    requires forall i | 0 <= i < |fp| :: lo <= fp[i] <= hi
    ensures forall k | 0 <= k < |xs| :: lo <= InterpAll(xs, xp, fp)[k] <= hi
  {
    forall k | 0 <= k < |xs| ensures lo <= InterpAll(xs, xp, fp)[k] <= hi {
      InterpBounded(xs[k], xp, fp, lo, hi);
    }
  }

  lemma {:induction false} InterpFromBounded(x: real, xp: seq<real>, fp: seq<real>, j: nat, lo: real, hi: real)
    requires |xp| == |fp| && j + 1 < |xp| && xp[j] <= x < xp[|xp| - 1]
    requires forall i | 0 <= i < |fp| :: lo <= fp[i] <= hi
    ensures lo <= InterpFrom(x, xp, fp, j) <= hi
    decreases |xp| - j
  {
    if x < xp[j + 1] {
      var dx := xp[j + 1] - xp[j];
      var t := (x - xp[j]) / dx;
      assert 0.0 <= t <= 1.0;
      assert (x - xp[j]) * (fp[j + 1] - fp[j]) / dx == t * (fp[j + 1] - fp[j]);
      ConvexCombination(fp[j], fp[j + 1], t, lo, hi);
    } else {
      InterpFromBounded(x, xp, fp, j + 1, lo, hi);
    }
  }

  lemma ConvexCombination(a: real, b: real, t: real, lo: real, hi: real)
    requires 0.0 <= t <= 1.0 && lo <= a <= hi && lo <= b <= hi
    ensures lo <= a + t * (b - a) <= hi
  {
    NonNegativeProduct(t, b - a);
    NonNegativeProduct(t, a - b);
    NonNegativeProduct(1.0 - t, b - a);
    NonNegativeProduct(1.0 - t, a - b);
    assert a + t * (b - a) == b + (1.0 - t) * (a - b);
  }

  lemma NonNegativeProduct(x: real, y: real)
    ensures x >= 0.0 && y >= 0.0 ==> x * y >= 0.0
    ensures x >= 0.0 && y <= 0.0 ==> x * y <= 0.0
  {
  }

  // ---------------------------------------------------------------------------
  // The constant-FWHM grid and spec_convol_R / spec_convol
  // ---------------------------------------------------------------------------

  /** The intermediate arrays of the resampling. */
  datatype ResampledGrid = ResampledGrid(fwhm: seq<real>, dwMin: real, fwhmS: real, ds: seq<real>, grid: seq<real>)

  predicate NoZero(s: seq<real>) {
    forall i | 0 <= i < |s| :: s[i] != 0.0
  }

  /**
   * dw_min, fwhm, fwhm_s, ds and wave_constfwhm of the input spectrum, with the errors of
   * the source in the order it meets them.
   */
  function ConstantFwhmGrid(wave: seq<real>, rp: ResolvingPower): (r: Result<ResampledGrid, ConvolError>)
    ensures r == Err(EmptySpectrum) <==> |wave| == 0
    ensures |wave| > 0 && Broadcast(rp, |wave|).Err? ==> r == Err(ShapeMismatch)
    ensures r.Ok? ==>
      var g := r.value;
      && |g.fwhm| == |g.ds| == |g.grid| == |wave|
      && g.dwMin == MinOf(Spacings(wave)) && g.dwMin != 0.0
      && Broadcast(rp, |wave|).Ok? && NoZero(Broadcast(rp, |wave|).value)
      && g.fwhm == Fwhm(wave, Broadcast(rp, |wave|).value)
      && g.fwhmS == SamplingFactor(g.fwhm, g.dwMin)
      && g.ds == Steps(g.fwhm, g.fwhmS)
      && g.grid == Grid(g.ds, MinOf(wave))
  {
    if |wave| == 0 then Err(EmptySpectrum)
    else
      var dwMin := MinOf(Spacings(wave));
      var rs :- Broadcast(rp, |wave|);
      if !NoZero(rs) then Err(ZeroResolvingPower)
      else
        var fwhm := Fwhm(wave, rs);
        if dwMin == 0.0 then Err(ZeroSpacing)
        else
          var fwhmS := SamplingFactor(fwhm, dwMin);
          var ds := Steps(fwhm, fwhmS);
          Ok(ResampledGrid(fwhm, dwMin, fwhmS, ds, Grid(ds, MinOf(wave))))
  }

  /**
   * For increasing positive wavelengths (at least two) and positive resolving powers the
   * grid is built without error: dw_min is the finest gap between neighbours, every step
   * lies in (0, fwhm/2], some step is no wider than dw_min, and the grid starts one step
   * above the shortest wavelength and increases strictly.
   */
  lemma GridOfIncreasingSpectrum(wave: seq<real>, rp: ResolvingPower)
    requires StrictlyIncreasing(wave) && |wave| >= 2 && wave[0] > 0.0
    requires Broadcast(rp, |wave|).Ok?
    requires forall i | 0 <= i < |wave| :: Broadcast(rp, |wave|).value[i] > 0.0
    ensures ConstantFwhmGrid(wave, rp).Ok?
    ensures var g := ConstantFwhmGrid(wave, rp).value;
      && g.dwMin == MinOf(Spacings(wave)[1..]) && g.dwMin > 0.0
      && (forall i | 0 <= i < |wave| :: 0.0 < g.ds[i] <= g.fwhm[i] / 2.0)
      && (exists i | 0 <= i < |wave| :: g.ds[i] <= g.dwMin)
      && g.grid[0] == wave[0] + g.ds[0]
      && StrictlyIncreasing(g.grid)
  {
    var rs := Broadcast(rp, |wave|).value;
    SpacingsOfIncreasing(wave);
    var dwMin := MinOf(Spacings(wave));
    assert NoZero(rs);
    var fwhm := Fwhm(wave, rs);
    PositiveWidths(wave, rs);
    StepsBounded(fwhm, dwMin);
    StepsReachFinestSpacing(fwhm, dwMin);
    var g := ConstantFwhmGrid(wave, rp).value;
    assert g.fwhm == fwhm && g.dwMin == dwMin;
    MinOfIncreasing(wave);
    GridSteps(g.ds, MinOf(wave));
    GridIncreasing(g.ds, MinOf(wave));
  }

  /** Positive wavelengths over positive resolving powers give positive widths. */
  lemma PositiveWidths(wave: seq<real>, rs: seq<real>)
    requires StrictlyIncreasing(wave) && |wave| > 0 && wave[0] > 0.0
    requires |rs| == |wave| && forall i | 0 <= i < |rs| :: rs[i] > 0.0
    ensures forall i | 0 <= i < |wave| :: Fwhm(wave, rs)[i] > 0.0
  {
    var fwhm := Fwhm(wave, rs);
    forall i | 0 <= i < |wave| ensures fwhm[i] > 0.0 {
      assert wave[0] <= wave[i];
      assert fwhm[i] * rs[i] == wave[i];
      NonNegativeProduct(rs[i], fwhm[i]);
    }
  }

  /** The smallest of increasing values is the first. */
  lemma MinOfIncreasing(s: seq<real>)
    requires StrictlyIncreasing(s) && |s| > 0
    ensures MinOf(s) == s[0]
  {
  }

  /** The Gaussian FFT convolution: flux on the grid and the kernel's sigma (in grid steps) to the convolved flux. */
  type Convolution = (seq<real>, real) -> seq<real>

  /**
   * spec_convol_R: the flux interpolated onto the constant-FWHM grid, convolved there with
   * a Gaussian of FWHM fwhm_s grid steps, and interpolated back onto wave.
   */
  function SpecConvolR(wave: seq<real>, flux: seq<real>, rp: ResolvingPower, convolve: Convolution)
    : (r: Result<seq<real>, ConvolError>)
    ensures r.Ok? ==> |r.value| == |wave|
    ensures ConstantFwhmGrid(wave, rp).Err? ==> r == Err(ConstantFwhmGrid(wave, rp).error)
    ensures ConstantFwhmGrid(wave, rp).Ok? && |flux| != |wave| ==> r == Err(ShapeMismatch)
  {
    var g :- ConstantFwhmGrid(wave, rp);
    if |flux| != |wave| then Err(ShapeMismatch)
    else
      var fluxConst := InterpAll(g.grid, wave, flux);
      var sigmaS := FwhmToSigma(g.fwhmS, FWHM_PER_SIGMA);
      var fluxConv := convolve(fluxConst, sigmaS);
      if |fluxConv| != |g.grid| then Err(ShapeMismatch)
      else Ok(InterpAll(wave, g.grid, fluxConv))
  }

  /** A convolution that keeps flux values of [lo, hi] in [lo, hi] and preserves length (a normalized, non-negative kernel). */
  ghost predicate PreservesRange(convolve: Convolution, lo: real, hi: real) {
    forall f: seq<real>, sigma: real | (forall k | 0 <= k < |f| :: lo <= f[k] <= hi) ::
      |convolve(f, sigma)| == |f| && forall k | 0 <= k < |f| :: lo <= convolve(f, sigma)[k] <= hi
  }

  /**
   * With such a convolution the resampled spectrum is computed without error when the
   * grid is, and it stays within the range of the input flux.
   */
  lemma SpecConvolRBounded(wave: seq<real>, flux: seq<real>, rp: ResolvingPower, convolve: Convolution, lo: real, hi: real)
    requires ConstantFwhmGrid(wave, rp).Ok? && |flux| == |wave|
    requires forall i | 0 <= i < |flux| :: lo <= flux[i] <= hi
    requires PreservesRange(convolve, lo, hi)
    ensures SpecConvolR(wave, flux, rp, convolve).Ok?
    ensures forall i | 0 <= i < |wave| :: lo <= SpecConvolR(wave, flux, rp, convolve).value[i] <= hi
  {
    var g := ConstantFwhmGrid(wave, rp).value;
    var fluxConst := InterpAll(g.grid, wave, flux);
    InterpAllBounded(g.grid, wave, flux, lo, hi);
    var fluxConv := convolve(fluxConst, FwhmToSigma(g.fwhmS, FWHM_PER_SIGMA));
    InterpAllBounded(wave, g.grid, fluxConv, lo, hi);
  }

  /** A scalar R, a one-element array and a full array of the same value resample identically. */
  lemma BroadcastEquivalence(wave: seq<real>, flux: seq<real>, r: real, convolve: Convolution)
    ensures SpecConvolR(wave, flux, Constant(r), convolve) == SpecConvolR(wave, flux, PerPoint([r]), convolve)
    ensures SpecConvolR(wave, flux, Constant(r), convolve) ==
      SpecConvolR(wave, flux, PerPoint(seq(|wave|, _ => r)), convolve)
  {
    var n := |wave|;
    var full := seq(n, _ => r);
    var one := Broadcast(PerPoint([r]), n).value;
    assert |one| == n && forall i | 0 <= i < n :: one[i] == full[i];
    assert one == full;
    assert Broadcast(Constant(r), n) == Ok(full) == Broadcast(PerPoint([r]), n);
  }

  /**
   * spec_convol: the resolution given as a velocity width dv in km/s, that is the constant
   * resolving power R = c / (dv * 1e3) with c in m/s.
   */
  function SpecConvol(wave: seq<real>, flux: seq<real>, dv: real, convolve: Convolution)
    : (r: Result<seq<real>, ConvolError>)
    ensures dv == 0.0 ==> r == Err(ZeroVelocity)
    ensures dv != 0.0 ==> r == SpecConvolR(wave, flux, PerPoint(seq(|wave|, _ => SPEED_OF_LIGHT_SI / (dv * 1000.0))), convolve)
  {
    if dv == 0.0 then Err(ZeroVelocity)
    else
      var r := SPEED_OF_LIGHT_SI / (dv * 1000.0);
      BroadcastEquivalence(wave, flux, r, convolve);
      SpecConvolR(wave, flux, Constant(r), convolve)
  }

  /** A positive velocity width gives a positive resolving power everywhere, and a narrower width a larger one. */
  lemma VelocityToResolvingPower(dv1: real, dv2: real)
    requires 0.0 < dv1 < dv2
    ensures 0.0 < SPEED_OF_LIGHT_SI / (dv2 * 1000.0) < SPEED_OF_LIGHT_SI / (dv1 * 1000.0)
  {
    var x, y := dv1 * 1000.0, dv2 * 1000.0;
    assert 0.0 < x < y;
    assert SPEED_OF_LIGHT_SI / y * y == SPEED_OF_LIGHT_SI;
    assert SPEED_OF_LIGHT_SI / x * x == SPEED_OF_LIGHT_SI;
  }
}
