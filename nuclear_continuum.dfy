/**
 * The nuclear (AGN) continuum component: a power law
 * F(λ) = F0 · (λ / λ0)^α with two parameters, the normalisation F0 and the
 * slope α, a flat prior on each, and the normalisation wavelength λ0 found
 * once from the data. The power itself is taken as a given function.
 */
module NuclearContinuum {
  import opened Wrappers
  import opened Numerics
  import opened Components

  /** The names the constructor lists, in order. */
  const ModelParameterNames: seq<string> := ["normalization", "slope"]

  const SlopeMin: real := -3.0
  const SlopeMax: real := 3.0

  const IndexMessage := "IndexError: list index out of range"
  const WrongParameterCountMessage := "AssertionError: The wrong number of indices were provided"
  const NoSpectrumAttributeMessage := "AttributeError: 'NoneType' object has no attribute"
  const EmptyFluxMessage := "ValueError: the flux array of the data spectrum is empty"

  /** np.power(x, alpha) for a ratio of wavelengths x and a slope alpha. */
  type PowerLaw = (real, real) -> real

  /** list.index(name): the position of the first occurrence, None where Python raises ValueError. */
  function IndexOf(names: seq<string>, name: string): (r: Option<nat>)
    ensures r.Some? ==> r.value < |names| && names[r.value] == name
                        && forall k :: 0 <= k < r.value ==> names[k] != name
    ensures r.None? ==> name !in names
  {
    if |names| == 0 then None
    else if names[0] == name then Some(0)
    else
      var rest := IndexOf(names[1..], name);
      if rest.None? then
        assert forall k :: 1 <= k < |names| ==> names[k] == names[1..][k - 1];
        None
      else Some(rest.value + 1)
  }

  /** The normalisation is parameter 0 and the slope parameter 1. */
  lemma ParameterLayout()
    ensures IndexOf(ModelParameterNames, "normalization") == Some(0)
    ensures IndexOf(ModelParameterNames, "slope") == Some(1)
    ensures |ModelParameterNames| == 2
  {
    assert ModelParameterNames[0] == "normalization";
    assert ModelParameterNames[1][0] == 's' && "normalization"[0] == 'n';
  }

  /**
   * ln_priors(params): the normalisation read at index 0 and the slope at
   * index 1, each against its own pair of bounds.
   */
  function NuclearLnPriors(normalizationMin: Option<real>, normalizationMax: Option<real>,
                           slopeMin: Option<real>, slopeMax: Option<real>, params: seq<real>): (r: Result<seq<real>>)
    ensures |params| < 2 ==> r.Failure?
    ensures r.Success? ==> |r.value| == 2 && forall k :: 0 <= k < 2 ==> r.value[k] == 0.0 || r.value[k] == LnPriorReject
  {
    if |params| < 2 then Failure(IndexMessage)
    else
      var n :- ChainedLnPrior(normalizationMin, params[0], normalizationMax);
      var s :- ChainedLnPrior(slopeMin, params[1], slopeMax);
      Success([n, s])
  }

  /**
   * With every bound set and two parameters there are exactly two entries:
   * each is 0 when its parameter is strictly inside its bounds and the
   * rejection sentinel otherwise, on the bounds included.
   */
  lemma NuclearLnPriorsMeaning(normalizationMin: real, normalizationMax: real,
                               slopeMin: real, slopeMax: real, params: seq<real>)
    requires |params| >= 2
    ensures var r := NuclearLnPriors(Some(normalizationMin), Some(normalizationMax), Some(slopeMin), Some(slopeMax), params);
      && r.Success? && |r.value| == 2
      && (r.value[0] == 0.0 <==> normalizationMin < params[0] < normalizationMax)
      && (r.value[1] == 0.0 <==> slopeMin < params[1] < slopeMax)
      && (forall i :: 0 <= i < 2 && r.value[i] != 0.0 ==> r.value[i] == LnPriorReject)
      && (params[1] == slopeMin || params[1] == slopeMax ==> r.value[1] == LnPriorReject)
  {
    ChainedLnPriorMeaning(Some(normalizationMin), params[0], Some(normalizationMax));
    ChainedLnPriorMeaning(Some(slopeMin), params[1], Some(slopeMax));
  }

  /** Fewer than two parameters raise before any bound is looked at. */
  lemma NuclearLnPriorsTooFew(normalizationMin: Option<real>, normalizationMax: Option<real>,
                              slopeMin: Option<real>, slopeMax: Option<real>, params: seq<real>)
    ensures |params| < 2 ==> NuclearLnPriors(normalizationMin, normalizationMax, slopeMin, slopeMax, params) == Failure(IndexMessage)
    ensures |params| >= 2 && normalizationMin.None? ==> NuclearLnPriors(normalizationMin, normalizationMax, slopeMin, slopeMax, params).Failure?
  {
  }

  /** F0 · np.power(λ / λ0, α) at every wavelength of the data. */
  function PowerLawFlux(normalization: real, slope: real, wavelengths: seq<real>, normWavelength: real,
                        power: PowerLaw): (r: seq<real>)
    requires normWavelength != 0.0
    ensures |r| == |wavelengths|
  {
    seq(|wavelengths|, j requires 0 <= j < |wavelengths| => normalization * power(wavelengths[j] / normWavelength, slope))
  }

  /** With slope 0 (and x^0 = 1) the continuum is flat at the normalisation. */
  lemma PowerLawFluxFlat(normalization: real, wavelengths: seq<real>, normWavelength: real, power: PowerLaw)
    requires normWavelength != 0.0
    requires forall x :: power(x, 0.0) == 1.0
    ensures forall j :: 0 <= j < |wavelengths| ==> PowerLawFlux(normalization, 0.0, wavelengths, normWavelength, power)[j] == normalization
  {
  }

  /** At the normalisation wavelength itself (and 1^α = 1) the flux is the normalisation, whatever the slope. */
  lemma PowerLawFluxAtNormalizationWavelength(normalization: real, slope: real, wavelengths: seq<real>,
                                              normWavelength: real, power: PowerLaw, j: nat)
    requires normWavelength != 0.0 && j < |wavelengths| && wavelengths[j] == normWavelength
    requires forall a :: power(1.0, a) == 1.0
    ensures PowerLawFlux(normalization, slope, wavelengths, normWavelength, power)[j] == normalization
  {
    assert wavelengths[j] / normWavelength == 1.0;
  }

  /** The flux is proportional to the normalisation. */
  lemma PowerLawFluxScales(c: real, normalization: real, slope: real, wavelengths: seq<real>,
                           normWavelength: real, power: PowerLaw)
    requires normWavelength != 0.0
    ensures forall j :: 0 <= j < |wavelengths| ==>
      PowerLawFlux(c * normalization, slope, wavelengths, normWavelength, power)[j]
      == c * PowerLawFlux(normalization, slope, wavelengths, normWavelength, power)[j]
  {
  }

  class NuclearContinuumComponent {
    const modelParameterNames: seq<string>

    var normWavelength: Option<real>
    var normalizationMin: Option<real>
    var normalizationMax: Option<real>
    var slopeMin: Option<real>
    var slopeMax: Option<real>
    /** Set by initial_values; absent (None here) until then. */
    var fluxMin: Option<real>
    var fluxMax: Option<real>

    constructor ()
      ensures modelParameterNames == ModelParameterNames
      ensures normWavelength.None? && normalizationMin.None? && normalizationMax.None?
      ensures slopeMin.None? && slopeMax.None? && fluxMin.None? && fluxMax.None?
    {
      modelParameterNames := ["normalization", "slope"];
      normWavelength := None;
      normalizationMin := None;
      normalizationMax := None;
      slopeMin := None;
      slopeMax := None;
      fluxMin := None;
      fluxMax := None;
    }

    /**
     * initial_values(spectrum): flux_min is set to 0 first, then flux_max
     * to the maximum of the smoothed data flux (raising for a missing or
     * empty spectrum), then the slope bounds to -3 and 3; one value is drawn
     * within each pair. The normalisation bounds ln_priors reads are left as
     * they were.
     */
    method InitialValues(spectrum: Option<Spectrum>) returns (r: Result<seq<real>>)
      modifies this`fluxMin, this`fluxMax, this`slopeMin, this`slopeMax
      ensures fluxMin == Some(0.0)
      ensures spectrum.None? || |spectrum.value.flux| == 0 ==>
        r.Failure? && fluxMax == old(fluxMax) && slopeMin == old(slopeMin) && slopeMax == old(slopeMax)
      ensures spectrum.Some? && |spectrum.value.flux| > 0 ==>
        && var ceiling := SmoothedFluxMax(spectrum.value.flux);
           && r.Success? && fluxMax == Some(ceiling)
           && slopeMin == Some(SlopeMin) && slopeMax == Some(SlopeMax)
           && |r.value| == 2
           && Drawn(r.value[0], 0.0, ceiling) && Drawn(r.value[1], SlopeMin, SlopeMax)
    {
      fluxMin := Some(0.0);
      if spectrum.None? {
        return Failure(NoSpectrumAttributeMessage);
      }
      if |spectrum.value.flux| == 0 {
        return Failure(EmptyFluxMessage);
      }
      fluxMax := Some(SmoothedFluxMax(spectrum.value.flux));
      var normalizationInit := DrawUniform(fluxMin.value, fluxMax.value);
      slopeMin := Some(SlopeMin);
      slopeMax := Some(SlopeMax);
      var slopeInit := DrawUniform(slopeMin.value, slopeMax.value);
      return Success([normalizationInit, slopeInit]);
    }

    /**
     * initial_values as evidently intended: the normalisation bounds that
     * ln_priors compares against are the ones set to 0 and the smoothed
     * flux maximum.
     */
    method InitialValuesIntended(spectrum: Option<Spectrum>) returns (r: Result<seq<real>>)
      modifies this`fluxMin, this`fluxMax, this`slopeMin, this`slopeMax, this`normalizationMin, this`normalizationMax
      ensures fluxMin == Some(0.0)
      ensures spectrum.None? || |spectrum.value.flux| == 0 ==>
        && r.Failure? && fluxMax == old(fluxMax) && slopeMin == old(slopeMin) && slopeMax == old(slopeMax)
        && normalizationMin == old(normalizationMin) && normalizationMax == old(normalizationMax)
      ensures spectrum.Some? && |spectrum.value.flux| > 0 ==>
        && var ceiling := SmoothedFluxMax(spectrum.value.flux);
           && r.Success? && fluxMax == Some(ceiling)
           && normalizationMin == Some(0.0) && normalizationMax == Some(ceiling)
           && slopeMin == Some(SlopeMin) && slopeMax == Some(SlopeMax)
           && |r.value| == 2
           && Drawn(r.value[0], 0.0, ceiling) && Drawn(r.value[1], SlopeMin, SlopeMax)
    {
      fluxMin := Some(0.0);
      if spectrum.None? {
        return Failure(NoSpectrumAttributeMessage);
      }
      if |spectrum.value.flux| == 0 {
        return Failure(EmptyFluxMessage);
      }
      fluxMax := Some(SmoothedFluxMax(spectrum.value.flux));
      normalizationMin := fluxMin;
      normalizationMax := fluxMax;
      var normalizationInit := DrawUniform(fluxMin.value, fluxMax.value);
      slopeMin := Some(SlopeMin);
      slopeMax := Some(SlopeMax);
      var slopeInit := DrawUniform(slopeMin.value, slopeMax.value);
      return Success([normalizationInit, slopeInit]);
    }

    /** normalization_wavelength(wavelengths): the same cache-once rule as the host galaxy component. */
    method NormalizationWavelength(wavelengths: Option<seq<real>>) returns (r: Result<real>)
      requires normWavelength.None? && wavelengths.Some? ==> |wavelengths.value| > 0
      modifies this`normWavelength
      ensures r == NormalizationWavelengthOf(old(normWavelength), wavelengths)
      ensures normWavelength == if r.Success? then Some(r.value) else old(normWavelength)
    {
      if normWavelength.None? {
        if wavelengths.None? {
          return Failure(NoWavelengthsMessage);
        }
        normWavelength := Some(Median(wavelengths.value));
      }
      return Success(normWavelength.value);
    }

    /** ln_priors(params): the list of the two log-priors, parameters located by name. */
    method LnPriors(params: seq<real>) returns (r: Result<seq<real>>)
      requires modelParameterNames == ModelParameterNames
      ensures r == NuclearLnPriors(normalizationMin, normalizationMax, slopeMin, slopeMax, params)
    {
      ParameterLayout();
      var normalizationIndex := IndexOf(modelParameterNames, "normalization").value;
      var slopeIndex := IndexOf(modelParameterNames, "slope").value;
      if normalizationIndex >= |params| || slopeIndex >= |params| {
        return Failure(IndexMessage);
      }
      var normalization := params[normalizationIndex];
      var slope := params[slopeIndex];
      var lnPriors: seq<real> := [];
      var n :- ChainedLnPrior(normalizationMin, normalization, normalizationMax);
      lnPriors := lnPriors + [n];
      var s :- ChainedLnPrior(slopeMin, slope, slopeMax);
      lnPriors := lnPriors + [s];
      assert lnPriors == [n, s];
      return Success(lnPriors);
    }

    /**
     * flux(spectrum, parameters): exactly two parameters, then the power law
     * over the data's wavelengths divided by the (cached) normalisation
     * wavelength.
     */
    method Flux(spectrum: Option<Spectrum>, parameters: seq<real>, power: PowerLaw) returns (r: Result<seq<real>>)
      requires modelParameterNames == ModelParameterNames
      requires spectrum.Some? && |parameters| == 2 ==>
        && (normWavelength.None? ==> |spectrum.value.wavelengths| > 0)
        && NormalizationWavelengthOf(normWavelength, Some(spectrum.value.wavelengths)).value != 0.0
      modifies this`normWavelength
      ensures |parameters| != 2 || spectrum.None? ==> r.Failure? && normWavelength == old(normWavelength)
      ensures |parameters| == 2 && spectrum.Some? ==>
        && var lambda0 := NormalizationWavelengthOf(old(normWavelength), Some(spectrum.value.wavelengths)).value;
           && normWavelength == Some(lambda0)
           && r == Success(PowerLawFlux(parameters[0], parameters[1], spectrum.value.wavelengths, lambda0, power))
    {
      if |parameters| != |modelParameterNames| {
        return Failure(WrongParameterCountMessage);
      }
      if spectrum.None? {
        return Failure(NoSpectrumAttributeMessage);
      }
      var wavelengths := spectrum.value.wavelengths;
      var lambda0 := NormalizationWavelength(Some(wavelengths));
      return Success(PowerLawFlux(parameters[0], parameters[1], wavelengths, lambda0.value, power));
    }
  }

  /**
   * ln_priors after initial_values on a fresh component, as written: the
   * normalisation bounds are still None, so the comparison raises.
   */
  method PriorsAfterInitialValues(spectrum: Spectrum, params: seq<real>) returns (r: Result<seq<real>>)
    requires |spectrum.flux| > 0 && |params| == 2
    ensures r.Failure?
  {
    var c := new NuclearContinuumComponent();
    var init := c.InitialValues(Some(spectrum));
    r := c.LnPriors(params);
  }

  /** The same sequence with the intended initial_values: both priors are evaluated. */
  method PriorsAfterInitialValuesIntended(spectrum: Spectrum, params: seq<real>) returns (r: Result<seq<real>>)
    requires |spectrum.flux| > 0 && |params| == 2
    ensures r.Success? && |r.value| == 2
    ensures r.value[0] == 0.0 <==> 0.0 < params[0] < SmoothedFluxMax(spectrum.flux)
    ensures r.value[1] == 0.0 <==> SlopeMin < params[1] < SlopeMax
  {
    var c := new NuclearContinuumComponent();
    var init := c.InitialValuesIntended(Some(spectrum));
    r := c.LnPriors(params);
    NuclearLnPriorsMeaning(0.0, SmoothedFluxMax(spectrum.flux), SlopeMin, SlopeMax, params);
  }
}
