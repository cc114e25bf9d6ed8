/**
 * What the host galaxy and nuclear continuum components share: the data
 * spectrum they are bound to, the flat prior with hard rejection, the
 * uniform draws of initial values, the smoothed flux ceiling and the
 * cache-once rule of the normalisation wavelength.
 */
module Components {
  import opened Wrappers
  import opened Numerics

  /**
   * The data spectrum, as far as the components read it. Its
   * flux_at_normalization_wavelength() belongs to the Spectrum class, which
   * is not part of this model, so it is carried here as a given value.
   */
  datatype Spectrum = Spectrum(wavelengths: seq<real>, flux: seq<real>, fluxAtNormalizationWavelength: real)

  /** The finite stand-in for ln(0) returned for a parameter outside its prior: -1.0e17. */
  const LnPriorReject: real := -100000000000000000.0

  /** Width of the boxcar that smooths the observed flux before its maximum is taken. */
  const BoxcarWidth: nat := 5

  /** ln of a flat prior on the open interval (lo, hi): ln(1) inside, the sentinel outside and on the bounds. */
  function FlatLnPrior(lo: real, x: real, hi: real): real
  {
    if lo < x < hi then 0.0 else LnPriorReject
  }

  /** The prior accepts exactly the values strictly between its bounds, and rejects with the sentinel. */
  lemma FlatLnPriorMeaning(lo: real, x: real, hi: real)
    ensures FlatLnPrior(lo, x, hi) == 0.0 <==> lo < x < hi
    ensures FlatLnPrior(lo, x, hi) != 0.0 ==> FlatLnPrior(lo, x, hi) == LnPriorReject
    ensures FlatLnPrior(lo, lo, hi) == LnPriorReject && FlatLnPrior(lo, hi, hi) == LnPriorReject
  {
  }

  const NoneComparisonMessage := "TypeError: '<' not supported between instances of 'float' and 'NoneType'"

  /**
   * The chained comparison lo < x < hi of Python 3 as a prior: a None lower
   * bound raises; the upper bound is only compared (and only raises when
   * None) once lo < x holds.
   */
  function ChainedLnPrior(lo: Option<real>, x: real, hi: Option<real>): (r: Result<real>)
    ensures r.Success? ==> r.value == 0.0 || r.value == LnPriorReject
  {
    if lo.None? then Failure(NoneComparisonMessage)
    else if !(lo.value < x) then Success(LnPriorReject)
    else if hi.None? then Failure(NoneComparisonMessage)
    else Success(FlatLnPrior(lo.value, x, hi.value))
  }

  /** With both bounds set the chained comparison is the flat prior; a missing lower bound always raises. */
  lemma ChainedLnPriorMeaning(lo: Option<real>, x: real, hi: Option<real>)
    ensures lo.Some? && hi.Some? ==> ChainedLnPrior(lo, x, hi) == Success(FlatLnPrior(lo.value, x, hi.value))
    ensures lo.None? ==> ChainedLnPrior(lo, x, hi).Failure?
    ensures ChainedLnPrior(lo, x, hi).Failure? <==> lo.None? || (hi.None? && lo.value < x)
  {
  }

  /**
   * v is a possible value of np.random.uniform(low=lo, high=hi): between
   * the two bounds (NumPy also accepts hi < lo, and rounding can reach hi).
   */
  predicate Drawn(v: real, lo: real, hi: real)
  {
    if lo <= hi then lo <= v <= hi else hi <= v <= lo
  }

  /** A draw of np.random.uniform(low, high). */
  method DrawUniform(low: real, high: real) returns (v: real)
    ensures Drawn(v, low, high)
  {
    assert Drawn(low, low, high);
    v :| Drawn(v, low, high);
  }

  /** A draw of np.random.uniform(low=lows, high=highs) over arrays: one independent draw per entry. */
  method DrawUniforms(lows: seq<real>, highs: seq<real>) returns (vs: seq<real>)
    requires |lows| == |highs|
    ensures |vs| == |lows|
    ensures forall i :: 0 <= i < |vs| ==> Drawn(vs[i], lows[i], highs[i])
  {
    vs := [];
    for i := 0 to |lows|
      invariant |vs| == i
      invariant forall k :: 0 <= k < i ==> Drawn(vs[k], lows[k], highs[k])
    {
      var v := DrawUniform(lows[i], highs[i]);
      vs := vs + [v];
    }
  }

  /** max(runningMeanFast(flux, 5)): the ceiling of the normalisation priors. */
  function SmoothedFluxMax(flux: seq<real>): (m: real)
    requires |flux| > 0
    ensures m in RunningMeanFast(flux, BoxcarWidth)
    ensures forall x :: x in RunningMeanFast(flux, BoxcarWidth) ==> x <= m
  {
    Max(RunningMeanFast(flux, BoxcarWidth))
  }

  const NoWavelengthsMessage := "Exception: The wavelength array of the data spectrum must be specified."

  /**
   * What normalization_wavelength(data_spectrum_wavelength) returns given
   * the cached value: the cache when there is one, otherwise the median of
   * the wavelengths, and an exception when there are none. The median of an
   * empty array (NaN in NumPy) is not modelled.
   */
  function NormalizationWavelengthOf(cache: Option<real>, wavelengths: Option<seq<real>>): (r: Result<real>)
    requires cache.None? && wavelengths.Some? ==> |wavelengths.value| > 0
  {
    if cache.Some? then Success(cache.value)
    else if wavelengths.None? then Failure(NoWavelengthsMessage)
    else Success(Median(wavelengths.value))
  }

  /**
   * The normalisation wavelength is found once: when nothing is cached it is
   * the median of the first wavelengths given, and afterwards the cached value
   * is returned whatever wavelengths are passed.
   */
  lemma NormalizationWavelengthCached(wavelengths: seq<real>, later: Option<seq<real>>)
    requires |wavelengths| > 0
    ensures NormalizationWavelengthOf(None, None).Failure?
    ensures NormalizationWavelengthOf(None, Some(wavelengths)) == Success(Median(wavelengths))
    ensures NormalizationWavelengthOf(Some(Median(wavelengths)), later) == Success(Median(wavelengths))
    ensures Min(wavelengths) <= Median(wavelengths) <= Max(wavelengths)
  {
  }
}
