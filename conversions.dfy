/**
 * Unit conversions of the utilities: between the standard deviation and the full width
 * at half maximum of a Gaussian, and from a wavenumber to the equivalent temperature.
 * The transcendental factor 2*sqrt(2*ln 2) and the physical ratio h*c/k_B are not
 * computed here: they are parameters, known only to be positive.
 */
module Conversions {

  /** A strictly positive real, the type of the opaque physical constants. */
  type Positive = r: real | r > 0.0 witness 1.0

  /** The speed of light in cm/s (astropy's c in CGS units); exact by definition of the metre. */
  const SPEED_OF_LIGHT_CGS: real := 29979245800.0

  /** The speed of light in m/s. */
  const SPEED_OF_LIGHT_SI: real := 299792458.0

  /** sigma_to_fwhm: the FWHM of a Gaussian with standard deviation sigma. */
  function SigmaToFwhm(sigma: real, fwhmPerSigma: Positive): (fwhm: real)
    ensures fwhm > 0.0 <==> sigma > 0.0
  {
    sigma * fwhmPerSigma
  }

  /** fwhm_to_sigma: the standard deviation of a Gaussian with the given FWHM. */
  function FwhmToSigma(fwhm: real, fwhmPerSigma: Positive): (sigma: real)
    ensures sigma > 0.0 <==> fwhm > 0.0
  {
    fwhm / fwhmPerSigma
  }

  lemma SigmaFwhmRoundTrip(sigma: real, fwhmPerSigma: Positive)
    ensures FwhmToSigma(SigmaToFwhm(sigma, fwhmPerSigma), fwhmPerSigma) == sigma
  {
  }

  lemma FwhmSigmaRoundTrip(fwhm: real, fwhmPerSigma: Positive)
    ensures SigmaToFwhm(FwhmToSigma(fwhm, fwhmPerSigma), fwhmPerSigma) == fwhm
  {
  }

  /** Wider Gaussians have wider half maxima, and conversely. */
  lemma SigmaToFwhmMonotonic(s1: real, s2: real, fwhmPerSigma: Positive)
    ensures s1 < s2 <==> SigmaToFwhm(s1, fwhmPerSigma) < SigmaToFwhm(s2, fwhmPerSigma)
  {
  }

  /**
   * wn_to_k: the temperature h*c*wn/k_B of a photon of wavenumber wn (in cm^-1),
   * after converting the wavenumber to m^-1; hcOverK is h*c/k_B in m*K.
   */
  function WnToK(wn: real, hcOverK: Positive): (t: real)
    ensures t > 0.0 <==> wn > 0.0
    ensures t == 0.0 <==> wn == 0.0
  {
    wn * 100.0 * hcOverK
  }

  /** The conversion is linear: energies of summed wavenumbers add up. */
  lemma WnToKAdditive(wn1: real, wn2: real, hcOverK: Positive)
    ensures WnToK(wn1 + wn2, hcOverK) == WnToK(wn1, hcOverK) + WnToK(wn2, hcOverK)
  {
  }

  /** The conversion is strictly increasing, hence one-to-one. */
  lemma WnToKStrictlyIncreasing(wn1: real, wn2: real, hcOverK: Positive)
    ensures wn1 < wn2 <==> WnToK(wn1, hcOverK) < WnToK(wn2, hcOverK)
    ensures wn1 == wn2 <==> WnToK(wn1, hcOverK) == WnToK(wn2, hcOverK)
  {
  }

  /** Python's int() of a float: the integer part, truncated toward zero. */
  function Trunc(x: real): (n: int)
    ensures 0.0 <= x ==> 0 <= n && n as real <= x < n as real + 1.0
    ensures x < 0.0 ==> n <= 0 && n as real - 1.0 < x <= n as real
  {
    if x >= 0.0 then x.Floor else -((-x).Floor)
  }
}
