/**
 * The JWST MIRI MRS tables of the utilities: the approximate resolving power
 * R = A + B * w of each of the twelve sub-bands over its wavelength range (microns), the
 * smallest R at every distinct wavelength covered, and the nominal wavelength range of
 * each sub-band.
 */
module MiriMrs {
  import opened Wrappers
  import opened ExtendedReals
  import opened Selection

  /** One sub-band of the resolution tables: the range (w0, w1] and the coefficients A, B. */
  datatype Band = Band(name: string, w0: real, w1: real, a: real, b: real)

  /** The resolution tables, in the order the dictionaries list the sub-bands. */
  const RESOLUTION_BANDS: seq<Band> := [
    Band("1A", 4.90, 5.74, -19.5, 572.0),
    Band("1B", 5.66, 6.63, 2742.0, 150.0),
    Band("1C", 6.53, 7.65, -543.0, 601.0),
    Band("2A", 7.51, 8.77, 332.0, 400.0),
    Band("2B", 8.67, 10.13, -331.0, 400.0),
    Band("2C", 10.02, 11.70, 430.0, 264.0),
    Band("3A", 11.55, 13.47, -5120.0, 633.0),
    Band("3B", 13.34, 15.57, -1871.0, 317.0),
    Band("3C", 15.41, 17.98, -2440.0, 312.0),
    Band("4A", 17.70, 20.95, -2066.0, 225.0),
    Band("4B", 20.69, 24.48, -1076.0, 150.0),
    Band("4C", 24.19, 28.10, -3451.0, 216.0)
  ]

  /** A band covers the wavelengths above its lower edge, up to and including its upper edge. */
  predicate InBand(band: Band, w: real) {
    band.w0 < w <= band.w1
  }

  function InBandOf(band: Band): real -> bool {
    w => InBand(band, w)
  }

  /** The resolving power A + B * w of a band at wavelength w. */
  function Resolution(band: Band, w: real): real {
    band.a + band.b * w
  }

  function Resolutions(band: Band, ws: seq<real>): (rs: seq<real>)
    ensures |rs| == |ws|
    ensures forall i | 0 <= i < |ws| :: rs[i] == Resolution(band, ws[i])
  {
    seq(|ws|, i requires 0 <= i < |ws| => Resolution(band, ws[i]))
  }

  /** Some band of the table covers w. */
  predicate Covered(bands: seq<Band>, w: real) {
    exists k | 0 <= k < |bands| :: InBand(bands[k], w)
  }

  /**
   * The reference meaning of the result: the smallest resolving power at w among the
   * bands covering w, and +inf when none covers it.
   */
  function MinOverBands(bands: seq<Band>, w: real): (m: ExtReal)
  {
    if |bands| == 0 then PlusInfinity
    else
      var last := bands[|bands| - 1];
      Min(MinOverBands(bands[..|bands| - 1], w), if InBand(last, w) then Finite(Resolution(last, w)) else PlusInfinity)
  }

  /**
   * MinOverBands is finite exactly on covered wavelengths, is at most the resolving
   * power of every band covering w, and is the resolving power of one of them.
   */
  lemma {:induction false} MinOverBandsMeaning(bands: seq<Band>, w: real)
    ensures MinOverBands(bands, w).Finite? <==> Covered(bands, w)
    ensures forall k | 0 <= k < |bands| && InBand(bands[k], w) ::
      MinOverBands(bands, w).value <= Resolution(bands[k], w)
    ensures Covered(bands, w) ==> exists k | 0 <= k < |bands| ::
      InBand(bands[k], w) && MinOverBands(bands, w).value == Resolution(bands[k], w)
  {
    if |bands| > 0 {
      var n := |bands| - 1;
      var init := bands[..n];
      MinOverBandsMeaning(init, w);
      assert forall k | 0 <= k < n :: init[k] == bands[k];
      if Covered(bands, w) && !Covered(init, w) {
        assert InBand(bands[n], w);
      }
    }
  }

  // ---------------------------------------------------------------------------
  // The loop over the sub-bands: total_wave and R
  // ---------------------------------------------------------------------------

  /** total_wave after the given bands: each band's in-range wavelengths, band after band. */
  function Samples(wave: seq<real>, bands: seq<Band>): seq<real> {
    if |bands| == 0 then []
    else Samples(wave, bands[..|bands| - 1]) + Filter(wave, InBandOf(bands[|bands| - 1]))
  }

  /** R after the given bands: the resolving power of each sample in its band. */
  function SampleResolutions(wave: seq<real>, bands: seq<Band>): (rs: seq<real>)
    ensures |rs| == |Samples(wave, bands)|
  {
    if |bands| == 0 then []
    else
      var last := bands[|bands| - 1];
      SampleResolutions(wave, bands[..|bands| - 1]) + Resolutions(last, Filter(wave, InBandOf(last)))
  }

  /** mask = (wave > w0) & (wave <= w1). */
  function BandMask(wave: seq<real>, band: Band): (m: seq<bool>)
    ensures |m| == |wave|
    ensures forall i | 0 <= i < |wave| :: m[i] == InBand(band, wave[i])
  {
    And(seq(|wave|, i requires 0 <= i < |wave| => wave[i] > band.w0),
        seq(|wave|, i requires 0 <= i < |wave| => wave[i] <= band.w1))
  }

  /** wave[mask] is the wavelengths of the input the band covers, in input order. */
  lemma BandSelection(wave: seq<real>, band: Band)
    ensures MaskSelect(wave, BandMask(wave, band)) == Filter(wave, InBandOf(band))
  {
    MaskSelectIsFilter(wave, BandMask(wave, band), InBandOf(band));
  }

  /** The loop of get_miri_mrs_resolution that concatenates the bands' samples. */
  method CollectBands(wave: seq<real>, bands: seq<Band>) returns (totalWave: seq<real>, r: seq<real>)
    ensures totalWave == Samples(wave, bands)
    ensures r == SampleResolutions(wave, bands)
  {
    totalWave, r := [], [];
    for k := 0 to |bands|
      invariant totalWave == Samples(wave, bands[..k])
      invariant r == SampleResolutions(wave, bands[..k])
    {
      var waveBand := MaskSelect(wave, BandMask(wave, bands[k]));
      var rBand := Resolutions(bands[k], waveBand);
      BandSelection(wave, bands[k]);
      SamplesStep(wave, bands, k);
      totalWave := totalWave + waveBand;
      r := r + rBand;
    }
    assert bands[..|bands|] == bands;
  }

  lemma SamplesStep(wave: seq<real>, bands: seq<Band>, k: nat)
    requires k < |bands|
    ensures Samples(wave, bands[..k + 1]) == Samples(wave, bands[..k]) + Filter(wave, InBandOf(bands[k]))
    ensures SampleResolutions(wave, bands[..k + 1]) ==
      SampleResolutions(wave, bands[..k]) + Resolutions(bands[k], Filter(wave, InBandOf(bands[k])))
  {
    var prefix := bands[..k + 1];
    assert prefix[..k] == bands[..k] && prefix[k] == bands[k];
  }

  /** A sample is a wavelength of the input that some band covers, and every such wavelength is sampled. */
  lemma {:induction false} SamplesMembership(wave: seq<real>, bands: seq<Band>, w: real)
    ensures w in Samples(wave, bands) <==> w in wave && Covered(bands, w)
  {
    if |bands| > 0 {
      var n := |bands| - 1;
      var init := bands[..n];
      SamplesMembership(wave, init, w);
      FilterMembership(wave, InBandOf(bands[n]), w);
      assert forall k | 0 <= k < n :: init[k] == bands[k];
      if Covered(bands, w) && !Covered(init, w) {
        assert InBand(bands[n], w);
      }
    }
  }

  // ---------------------------------------------------------------------------
  // Minimum of R per wavelength
  // ---------------------------------------------------------------------------

  /** The smallest r[j] over the pairs with t[j] == x; +inf when there is none. */
  function ValueMin(t: seq<real>, r: seq<real>, x: real): ExtReal
    requires |t| == |r|
  {
    if |t| == 0 then PlusInfinity
    else Min(ValueMin(t[..|t| - 1], r[..|r| - 1], x), if t[|t| - 1] == x then Finite(r[|r| - 1]) else PlusInfinity)
  }

  lemma {:induction false} ValueMinConcat(t1: seq<real>, r1: seq<real>, t2: seq<real>, r2: seq<real>, x: real)
    requires |t1| == |r1| && |t2| == |r2|
    ensures ValueMin(t1 + t2, r1 + r2, x) == Min(ValueMin(t1, r1, x), ValueMin(t2, r2, x))
  {
    if |t2| == 0 {
      assert t1 + t2 == t1 && r1 + r2 == r1;
    } else {
      var n := |t2| - 1;
      assert (t1 + t2)[..|t1| + n] == t1 + t2[..n];
      assert (r1 + r2)[..|r1| + n] == r1 + r2[..n];
      ValueMinConcat(t1, r1, t2[..n], r2[..n], x);
      MinAssociative(ValueMin(t1, r1, x), ValueMin(t2[..n], r2[..n], x),
                     if t2[n] == x then Finite(r2[n]) else PlusInfinity);
    }
  }

  /** Within one band a wavelength has one resolving power, however often it occurs. */
  lemma {:induction false} ValueMinOfBand(band: Band, ws: seq<real>, x: real)
    ensures ValueMin(ws, Resolutions(band, ws), x) ==
      if x in ws then Finite(Resolution(band, x)) else PlusInfinity
  {
    if |ws| > 0 {
      var n := |ws| - 1;
      assert Resolutions(band, ws)[..n] == Resolutions(band, ws[..n]);
      ValueMinOfBand(band, ws[..n], x);
      assert x in ws <==> x in ws[..n] || ws[n] == x;
    }
  }

  /** For an input wavelength, the minimum over its samples is the minimum over the covering bands. */
  lemma {:induction false} SamplesMinimum(wave: seq<real>, bands: seq<Band>, x: real)
    requires x in wave
    ensures ValueMin(Samples(wave, bands), SampleResolutions(wave, bands), x) == MinOverBands(bands, x)
  {
    if |bands| > 0 {
      var n := |bands| - 1;
      var last := bands[n];
      var wb := Filter(wave, InBandOf(last));
      SamplesMinimum(wave, bands[..n], x);
      ValueMinConcat(Samples(wave, bands[..n]), SampleResolutions(wave, bands[..n]), wb, Resolutions(last, wb), x);
      ValueMinOfBand(last, wb, x);
      FilterMembership(wave, InBandOf(last), x);
    }
  }

  // ---------------------------------------------------------------------------
  // np.unique with return_inverse, and np.minimum.at
  // ---------------------------------------------------------------------------

  predicate StrictlyIncreasing(s: seq<real>) {
    forall i, j | 0 <= i < j < |s| :: s[i] < s[j]
  }

  /** Insertion of x into a strictly increasing sequence, unless already present. */
  function Insert(u: seq<real>, x: real): (r: seq<real>)
    requires StrictlyIncreasing(u)
    ensures StrictlyIncreasing(r)
    ensures forall y :: y in r <==> y in u || y == x
  {
    if |u| == 0 then [x]
    else if x < u[0] then
      ConsIncreasing(x, u);
      [x] + u
    else if x == u[0] then u
    else
      var rest := Insert(u[1..], x);
      TailAbove(u);
      ConsIncreasing(u[0], rest);
      [u[0]] + rest
  }

  /** Every later element of a strictly increasing sequence exceeds its head. */
  lemma TailAbove(u: seq<real>)
    requires StrictlyIncreasing(u) && |u| > 0
    ensures forall y :: y in u <==> y == u[0] || y in u[1..]
    ensures forall y | y in u[1..] :: u[0] < y
  {
    forall y | y in u[1..] ensures u[0] < y {
      var i :| 0 <= i < |u[1..]| && u[1..][i] == y;
      assert u[i + 1] == y;
    }
  }

  /** A head below every element of a strictly increasing sequence keeps it strictly increasing. */
  lemma ConsIncreasing(x: real, s: seq<real>)
    requires StrictlyIncreasing(s) && forall y | y in s :: x < y
    ensures StrictlyIncreasing([x] + s)
  {
    var r := [x] + s;
    forall i, j | 0 <= i < j < |r| ensures r[i] < r[j] {
      assert r[j] == s[j - 1];
      if i == 0 {
        assert s[j - 1] in s;
      } else {
        assert r[i] == s[i - 1];
      }
    }
  }

  /** The sorted distinct values of s (np.unique). */
  function Unique(s: seq<real>): (u: seq<real>)
    ensures StrictlyIncreasing(u)
    ensures forall y :: y in u <==> y in s
  {
    if |s| == 0 then []
    else
      var u := Insert(Unique(s[..|s| - 1]), s[|s| - 1]);
      assert forall y :: y in s <==> y in s[..|s| - 1] || y == s[|s| - 1];
      u
  }

  /** The position of x in a sequence that holds it. */
  function IndexOf(u: seq<real>, x: real): (i: nat)
    requires x in u
    ensures i < |u| && u[i] == x
  {
    if u[0] == x then 0 else 1 + IndexOf(u[1..], x)
  }

  /** The inverse indices of np.unique: the position in u of each element of s. */
  function InverseIndices(u: seq<real>, s: seq<real>): (idx: seq<int>)
    requires forall y | y in s :: y in u
    ensures |idx| == |s|
    ensures forall j | 0 <= j < |s| :: 0 <= idx[j] < |u| && u[idx[j]] == s[j]
  {
    seq(|s|, j requires 0 <= j < |s| => IndexOf(u, s[j]))
  }

  /** The smallest values[j] over the j with indices[j] == i; +inf when there is none. */
  function IndexMin(indices: seq<int>, values: seq<real>, i: int): ExtReal
    requires |indices| == |values|
  {
    if |indices| == 0 then PlusInfinity
    else
      var n := |indices| - 1;
      Min(IndexMin(indices[..n], values[..n], i), if indices[n] == i then Finite(values[n]) else PlusInfinity)
  }

  /** np.minimum.at(smallest, indices, values): each slot lowered to the least value sent to it. */
  method MinimumAt(smallest: array<ExtReal>, indices: seq<int>, values: seq<real>)
    requires |indices| == |values|
    requires forall j | 0 <= j < |indices| :: 0 <= indices[j] < smallest.Length
    modifies smallest
    ensures forall i | 0 <= i < smallest.Length :: smallest[i] == Min(old(smallest[i]), IndexMin(indices, values, i))
  {
    for j := 0 to |indices|
      invariant forall i | 0 <= i < smallest.Length ::
        smallest[i] == Min(old(smallest[i]), IndexMin(indices[..j], values[..j], i))
    {
      assert indices[..j + 1][..j] == indices[..j] && values[..j + 1][..j] == values[..j];
      forall i | 0 <= i < smallest.Length
        ensures Min(old(smallest[i]), IndexMin(indices[..j + 1], values[..j + 1], i)) ==
          Min(Min(old(smallest[i]), IndexMin(indices[..j], values[..j], i)),
              if indices[j] == i then Finite(values[j]) else PlusInfinity)
      {
        MinAssociative(old(smallest[i]), IndexMin(indices[..j], values[..j], i),
                       if indices[j] == i then Finite(values[j]) else PlusInfinity);
      }
      smallest[indices[j]] := Min(smallest[indices[j]], Finite(values[j]));
    }
    assert indices[..|indices|] == indices && values[..|values|] == values;
  }

  /** With the inverse indices of a strictly increasing u, slot i collects exactly the pairs at value u[i]. */
  lemma {:induction false} IndexMinByValue(u: seq<real>, t: seq<real>, r: seq<real>, indices: seq<int>, i: int)
    requires StrictlyIncreasing(u) && 0 <= i < |u|
    requires |t| == |r| == |indices|
    requires forall j | 0 <= j < |t| :: 0 <= indices[j] < |u| && u[indices[j]] == t[j]
    ensures IndexMin(indices, r, i) == ValueMin(t, r, u[i])
  {
    if |t| > 0 {
      var n := |t| - 1;
      IndexMinByValue(u, t[..n], r[..n], indices[..n], i);
      assert indices[n] == i <==> t[n] == u[i];
    }
  }

  // ---------------------------------------------------------------------------
  // get_miri_mrs_resolution
  // ---------------------------------------------------------------------------

  /** The argument of get_miri_mrs_resolution: a scalar or an array of wavelengths. */
  datatype WaveArgument = Scalar(w: real) | Array(ws: seq<real>)

  /** np.array(wave, ndmin=1): a scalar becomes the one-element array. */
  function AsArray(arg: WaveArgument): (ws: seq<real>)
    ensures arg.Scalar? ==> ws == [arg.w]
    ensures arg.Array? ==> ws == arg.ws
  {
    match arg
    case Scalar(w) => [w]
    case Array(ws) => ws
  }

  /**
   * The body of get_miri_mrs_resolution over any band table: the distinct input
   * wavelengths that some band covers, in increasing order, each with the smallest
   * resolving power of the bands covering it; none of them is +inf.
   */
  method ResolutionOverBands(wave: seq<real>, bands: seq<Band>) returns (uniqueWaves: seq<real>, smallestR: seq<ExtReal>)
    ensures StrictlyIncreasing(uniqueWaves)
    ensures forall w :: w in uniqueWaves <==> w in wave && Covered(bands, w)
    ensures |smallestR| == |uniqueWaves|
    ensures forall j | 0 <= j < |uniqueWaves| ::
      smallestR[j].Finite? && smallestR[j] == MinOverBands(bands, uniqueWaves[j])
  {
    var totalWave, r := CollectBands(wave, bands);
    uniqueWaves := Unique(totalWave);
    var indices := InverseIndices(uniqueWaves, totalWave);
    var smallest := new ExtReal[|uniqueWaves|](_ => PlusInfinity);
    MinimumAt(smallest, indices, r);
    smallestR := smallest[..];
    forall w ensures w in uniqueWaves <==> w in wave && Covered(bands, w) {
      SamplesMembership(wave, bands, w);
    }
    forall j | 0 <= j < |uniqueWaves|
      ensures smallestR[j].Finite? && smallestR[j] == MinOverBands(bands, uniqueWaves[j])
    {
      var x := uniqueWaves[j];
      IndexMinByValue(uniqueWaves, totalWave, r, indices, j);
      SamplesMembership(wave, bands, x);
      SamplesMinimum(wave, bands, x);
      MinOverBandsMeaning(bands, x);
    }
  }

  /** get_miri_mrs_resolution: the resolution over the twelve MRS sub-bands. */
  method GetMiriMrsResolution(arg: WaveArgument) returns (uniqueWaves: seq<real>, smallestR: seq<ExtReal>)
    ensures StrictlyIncreasing(uniqueWaves)
    ensures forall w :: w in uniqueWaves <==> w in AsArray(arg) && Covered(RESOLUTION_BANDS, w)
    ensures |smallestR| == |uniqueWaves|
    ensures forall j | 0 <= j < |uniqueWaves| ::
      smallestR[j].Finite? && smallestR[j] == MinOverBands(RESOLUTION_BANDS, uniqueWaves[j])
  {
    uniqueWaves, smallestR := ResolutionOverBands(AsArray(arg), RESOLUTION_BANDS);
  }

  // ---------------------------------------------------------------------------
  // get_miri_mrs_wavelengths
  // ---------------------------------------------------------------------------

  /** The error for an unknown sub-band, where the source prints a message and exits with status 1. */
  datatype SubbandError = InvalidSubband(subband: string)

  /** get_miri_mrs_wavelengths: the nominal (w0, w1) range of a sub-band, in microns. */
  function GetMiriMrsWavelengths(subband: string): (r: Result<(real, real), SubbandError>)
    ensures r.Err? ==> r.error == InvalidSubband(subband)
  {
    match subband
    case "1A" => Ok((4.87, 5.82))
    case "1B" => Ok((5.62, 6.73))
    case "1C" => Ok((6.49, 7.76))
    case "2A" => Ok((7.45, 8.90))
    case "2B" => Ok((8.61, 10.28))
    case "2C" => Ok((9.91, 11.87))
    case "3A" => Ok((11.47, 13.67))
    case "3B" => Ok((13.25, 15.80))
    case "3C" => Ok((15.30, 18.24))
    case "4A" => Ok((17.54, 21.10))
    case "4B" => Ok((20.44, 24.72))
    case "4C" => Ok((23.84, 28.82))
    case _ => Err(InvalidSubband(subband))
  }

  /**
   * The sub-bands known to get_miri_mrs_wavelengths are exactly those of the resolution
   * tables, and the range of each band's resolution table lies strictly inside its
   * nominal range, which is non-empty.
   */
  lemma SubbandTablesAgree(subband: string)
    ensures GetMiriMrsWavelengths(subband).Ok? <==>
      exists k | 0 <= k < |RESOLUTION_BANDS| :: RESOLUTION_BANDS[k].name == subband
    ensures forall k | 0 <= k < |RESOLUTION_BANDS| ::
      var band := RESOLUTION_BANDS[k];
      var range := GetMiriMrsWavelengths(band.name);
      range.Ok? && range.value.0 < band.w0 < band.w1 < range.value.1
  {
    if GetMiriMrsWavelengths(subband).Ok? {
      var k := SubbandIndex(subband);
      assert RESOLUTION_BANDS[k].name == subband;
    }
  }

  /** The position of a known sub-band in the resolution tables. */
  function SubbandIndex(subband: string): (k: int)
    requires GetMiriMrsWavelengths(subband).Ok?
    ensures 0 <= k < |RESOLUTION_BANDS| && RESOLUTION_BANDS[k].name == subband
  {
    match subband
    case "1A" => 0 case "1B" => 1 case "1C" => 2
    case "2A" => 3 case "2B" => 4 case "2C" => 5
    case "3A" => 6 case "3B" => 7 case "3C" => 8
    case "4A" => 9 case "4B" => 10 case "4C" => 11
  }

  lemma MiriMrsWavelengthsExamples()
    ensures GetMiriMrsWavelengths("1A") == Ok((4.87, 5.82))
    ensures GetMiriMrsWavelengths("5A") == Err(InvalidSubband("5A"))
  {
  }
}
