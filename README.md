# SPAMM bookkeeping core in Dafny

SPAMM fits an AGN spectrum as a sum of components: a nuclear power-law
continuum, a host galaxy built from stellar templates, and others. Around the
numerical fit sits a small, discrete layer whose behaviour the code states
exactly. This project models that layer and proves properties of it:

- **Host galaxy component** (`HostGalaxy`, class `HostGalaxyComponent`):
  - lazy loading of the template list, with comment lines filtered out;
  - the parameter layout: N normalisations, then the stellar dispersion;
  - `initial_values`, which sets the prior bounds and draws starting values;
  - the bind step `initialize`, which allocates the flux buffer and resamples each template;
  - the cached normalisation wavelength;
  - the flat priors with hard rejection;
  - `flux`, which zeroes the shared buffer in place and accumulates the scaled templates into it.
- **Nuclear continuum component** (`NuclearContinuum`, class `NuclearContinuumComponent`):
  - the two-parameter layout;
  - `initial_values`, `normalization_wavelength` and `ln_priors`;
  - the length-checked power-law `flux`.
- **Shared rules** (`Components`, `Numerics`): `runningMeanFast` as a zero-padded forward window mean, `np.median`, the flat prior, uniform draws, and the cache-once normalisation wavelength.
- **Run script** (`RunSpamm`):
  - `parse_comps`;
  - the case-insensitive component flag map;
  - the non-overwriting `comp_params` defaults;
  - the pickle file and output directory names.

How the source is represented:

- Python's `None` and raised exceptions are `Option` and `Result` values (`Wrappers`). Python 3 semantics are assumed, so comparing a number with `None` raises.
- Fluxes and wavelengths are idealised as `real`.
- File contents are a `TemplateLibrary` value: the lines of each text file, and the table each template file holds.
- `scipy.interpolate.interp1d` is an `Interpolator` function parameter, and `np.power` is a `PowerLaw` function parameter.
- Random draws are nondeterministic choices within their bounds (`Components.Drawn`).
- The current time is a string parameter `now`.
- `parameter_index`, the redshift `z` and `Spectrum.flux_at_normalization_wavelength()` belong to classes not shown (`ComponentBase`, `Spectrum`), so they are inputs:
  - `parameter_index(name)` is taken to be the position of `name` in `model_parameter_names`;
  - `z` is a constructor argument;
  - the flux at the normalisation wavelength is a field of `Components.Spectrum`.

Three behaviours of the code worth stating up front:

- **Empty template list.** A template list with no non-comment lines is accepted and yields a component with no templates (`HostGalaxy.ReadTemplateList`, `HostGalaxy.HostGalaxyComponent.LoadHostTemplates`).
- **Parameter count.** `parameter_count` is the number of parameter names, plus one when the redshift is truthy (`HostGalaxy.HostGalaxyComponent.ParameterCount`).
- **Where the dispersion is read.** `ln_priors` reads the dispersion from the last entry, so with a redshift the entry in the dispersion's named slot is never checked (`HostGalaxy.HostLnPriorsIgnoresNamedDispersionSlot`).

## Model

| member | source | states |
|---|---|---|
| `Numerics.RunningMeanFast` | source/spamm/components/HostGalaxyComponent.py:15-21 | the running mean has one entry per input sample |
| `Numerics.RunningMeanWindow` | source/spamm/components/NuclearContinuumComponent.py:7-13 | entry k of `runningMeanFast(x, n)` is (x[k] + … + x[k+n−1]) / n, with samples past the end counted as 0 |
| `Numerics.Max` | source/spamm/components/HostGalaxyComponent.py:165 | `max` returns an element that no element exceeds |
| `Numerics.SortRealsSorted` | source/spamm/components/HostGalaxyComponent.py:231 | the sort underlying `np.median` yields an ordered permutation of its input |
| `Numerics.Median` | source/spamm/components/HostGalaxyComponent.py:231 | the median lies between the smallest and the largest wavelength |
| `Numerics.MedianOfSorted` | source/spamm/components/NuclearContinuumComponent.py:73 | on an ordered wavelength axis the median is the middle sample, or the mean of the two middle ones |
| `Components.FlatLnPriorMeaning` | source/spamm/components/HostGalaxyComponent.py:253-262 | the prior is 0 exactly when lo < x < hi, −1e17 otherwise, with both bounds rejected |
| `Components.DrawUniform` | source/spamm/components/HostGalaxyComponent.py:173 | a uniform draw lies between its two bounds |
| `Components.DrawUniforms` | source/spamm/components/HostGalaxyComponent.py:169 | an array draw has one value per bound pair, each between its own bounds |
| `Components.SmoothedFluxMax` | source/spamm/components/HostGalaxyComponent.py:163-165 | the prior ceiling is one of the smoothed flux values and none exceeds it |
| `Components.NormalizationWavelengthCached` | source/spamm/components/HostGalaxyComponent.py:228-232 | with nothing cached and no wavelengths it raises; otherwise the first call gives the median, and the cached value is returned whatever a later call passes |
| `Text.RStrip` | source/spamm/components/HostGalaxyComponent.py:119 | `rstrip("\n")` removes exactly the trailing newlines: a prefix remains, only newlines are removed, and none is left at the end |
| `Text.Basename` | spamm/run_spamm.py:146 | `os.path.basename` is the part after the last '/', which holds no '/' |
| `Text.JoinSplit` | spamm/run_spamm.py:174 | joining the pieces of `split(",")` with "," gives the string back |
| `Text.SplitCount` | spamm/run_spamm.py:174 | `split` yields one more piece than there are separators, empty pieces included |
| `Text.UpperString` | spamm/run_spamm.py:65 | `str.upper` leaves no lower-case ASCII letter and never shortens the string |
| `Text.UpperStringIdempotent` | spamm/run_spamm.py:65 | upper-casing an upper-cased name changes nothing |
| `HostGalaxy.ReadTemplateList` | source/spamm/components/HostGalaxyComponent.py:105-119 | a named template set raises; a missing list file raises; otherwise the result is the list's non-comment lines with trailing newlines stripped, and an empty list is accepted |
| `HostGalaxy.TemplateFilenames` | source/spamm/components/HostGalaxyComponent.py:113-119 | no more names than lines |
| `HostGalaxy.TemplateFilenamesAppend` | source/spamm/components/HostGalaxyComponent.py:115-119 | the list is parsed line by line: parsing two parts of a file in turn gives the names of both, in order |
| `HostGalaxy.TemplateFilenamesMembership` | source/spamm/components/HostGalaxyComponent.py:115-119 | a name is listed if and only if some non-comment line, stripped, equals it; no listed name ends in a newline |
| `HostGalaxy.TemplateFilenamesListed` | source/spamm/components/HostGalaxyComponent.py:115-119 | every listed name comes from some non-comment line of the list, stripped |
| `HostGalaxy.TemplateFilenamesComplete` | source/spamm/components/HostGalaxyComponent.py:115-119 | every non-comment line of the list, stripped, is listed |
| `HostGalaxy.TemplateFilenamesKeepsAll` | source/spamm/components/HostGalaxyComponent.py:115-119 | without comments every line is kept in order, blank lines included |
| `HostGalaxy.TemplateFilenamesSkipsComment` | source/spamm/components/HostGalaxyComponent.py:116-117 | a comment line contributes nothing wherever it stands |
| `HostGalaxy.LoadedTemplates` | source/spamm/components/HostGalaxyComponent.py:123-129 | templates are read in list order, each the table of the file at the same position; no more templates than names (`LoadedTemplatesStop` and `LoadedTemplatesAll` say where reading stops) |
| `HostGalaxy.LoadedTemplatesStop` | source/spamm/components/HostGalaxyComponent.py:125-126 | loading stops at the first template file that cannot be opened, keeping those read before it |
| `HostGalaxy.LoadedTemplatesAll` | source/spamm/components/HostGalaxyComponent.py:123-129 | when every file opens, one template is read per listed name, in list order |
| `HostGalaxy.ParameterNamesFor` | source/spamm/components/HostGalaxyComponent.py:92-96 | N+1 names, the last being "stellar dispersion" (`ParameterNamesLayout` gives the rest) |
| `HostGalaxy.ParameterNamesLayout` | source/spamm/components/HostGalaxyComponent.py:92-96 | N+1 names: entry i is "normalization_" followed by the decimal i+1, the last is "stellar dispersion", and all are distinct |
| `HostGalaxy.NormalizationLnPriorsChained` | source/spamm/components/HostGalaxyComponent.py:251-256 | the normalisation loop either raises or gives one entry per template, each 0 or −1e17 |
| `HostGalaxy.NormalizationLnPriorsFailureSticks` | source/spamm/components/HostGalaxyComponent.py:251-256 | once the loop raises, running it further raises the same error |
| `HostGalaxy.NormalizationLnPriorsBothSet` | source/spamm/components/HostGalaxyComponent.py:251-256 | with both bound lists set and enough parameters, entry i is the flat prior of params[i] within its own bounds |
| `HostGalaxy.NormalizationLnPriorsRaises` | source/spamm/components/HostGalaxyComponent.py:245-253 | an unset lower bound list, or too few parameters for `params[0:-1][i]`, raises |
| `HostGalaxy.NormalizationLnPriorsShortCircuit` | source/spamm/components/HostGalaxyComponent.py:253-256 | the chained comparison stops at the lower bound: with the upper bounds unset, normalisations not above their lower bounds are rejected without raising |
| `HostGalaxy.NormalizationLnPriorsReadsPrefix` | source/spamm/components/HostGalaxyComponent.py:245-253 | the loop reads only the parameters before the i-th |
| `HostGalaxy.HostLnPriors` | source/spamm/components/HostGalaxyComponent.py:242-265 | the priors either raise or give N+1 entries, each 0 or −1e17 |
| `HostGalaxy.HostLnPriorsDefined` | source/spamm/components/HostGalaxyComponent.py:245-259 | for bounds set in pairs, as the component sets them, the priors can be evaluated exactly when there are at least N+1 parameters and every bound compared is set |
| `HostGalaxy.HostLnPriorsMeaning` | source/spamm/components/HostGalaxyComponent.py:251-265 | N+1 entries: entry i is 0 if and only if norm_min[i] < params[i] < norm_max[i], the last is 0 if and only if the last parameter is strictly inside the dispersion bounds, and any other value is −1e17 |
| `HostGalaxy.HostLnPriorsAtInitialBounds` | source/spamm/components/HostGalaxyComponent.py:167-172 | with the bounds `initial_values` sets, a value on a bound is rejected, and a non-positive flux maximum rejects every normalisation |
| `HostGalaxy.HostLnPriorsIgnoresNamedDispersionSlot` | source/spamm/components/HostGalaxyComponent.py:245-246 | with a redshift parameter present, the entry in the dispersion's named slot does not affect the priors |
| `HostGalaxy.NormalizationScales` | source/spamm/components/HostGalaxyComponent.py:290-292 | one scale factor per template |
| `HostGalaxy.NormalizationConvention` | source/spamm/components/HostGalaxyComponent.py:292 | when p_i equals nf_i the scale is F0; in general template i contributes p_i · F0 at the normalisation wavelength |
| `HostGalaxy.AddScaled` | source/spamm/components/HostGalaxyComponent.py:296 | adding a scaled template keeps the buffer length |
| `HostGalaxy.LinearCombination` | source/spamm/components/HostGalaxyComponent.py:294-296 | the accumulated buffer has the buffer's length |
| `HostGalaxy.LinearCombinationAt` | source/spamm/components/HostGalaxyComponent.py:294-296 | entry j of the accumulated buffer is Σ_i scale_i · T_i[j], summed from the first template |
| `HostGalaxy.LinearCombinationAdditive` | source/spamm/components/HostGalaxyComponent.py:294-296 | the buffer is linear in the scales |
| `HostGalaxy.LinearCombinationOfZeros` | source/spamm/components/HostGalaxyComponent.py:294-296 | all-zero scales leave the zeroed buffer at zero |
| `HostGalaxy.HostFlux` | source/spamm/components/HostGalaxyComponent.py:290-296 | the flux has one value per data wavelength |
| `HostGalaxy.HostFluxIgnoresDispersion` | source/spamm/components/HostGalaxyComponent.py:287-296 | parameters after the normalisations, the dispersion included, do not affect the flux |
| `HostGalaxy.HostFluxAt` | source/spamm/components/HostGalaxyComponent.py:290-296 | the flux at j is Σ_i (p_i / nf_i · F0) · T_i[j] |
| `HostGalaxy.Resample` | source/spamm/components/HostGalaxyComponent.py:201-202 | a resampled template has one value per data wavelength |
| `HostGalaxy.ResampleAll` | source/spamm/components/HostGalaxyComponent.py:200-202 | one resampled array per template, each as long as the data's wavelength axis |
| `HostGalaxy.FluxesAt` | source/spamm/components/HostGalaxyComponent.py:204-205 | one normalisation flux per template |
| `HostGalaxy.ScaleNormalizations` | source/spamm/components/HostGalaxyComponent.py:290-292 | the norm list built in the loop is p_i / nf_i · F0 for each template |
| `HostGalaxy.AccumulateInto` | source/spamm/components/HostGalaxyComponent.py:294-296 | after zeroing and accumulating in place, the buffer holds the linear combination of the templates |
| `HostGalaxy.HostGalaxyComponent.constructor` | source/spamm/components/HostGalaxyComponent.py:53-75 | every cache, bound and buffer starts unset |
| `HostGalaxy.HostGalaxyComponent.LoadHostTemplates` | source/spamm/components/HostGalaxyComponent.py:102-129 | a named set or a missing list raises and leaves the cache as it was; otherwise the cache holds the templates read, and the call succeeds exactly when every listed file opens |
| `HostGalaxy.HostGalaxyComponent.Templates` | source/spamm/components/HostGalaxyComponent.py:77-81 | templates load on first access only; once cached they are returned unchanged |
| `HostGalaxy.HostGalaxyComponent.ParameterNames` | source/spamm/components/HostGalaxyComponent.py:92-96 | the names are the layout of `ParameterNamesFor` over the loaded templates |
| `HostGalaxy.HostGalaxyComponent.ParameterCount` | source/spamm/components/HostGalaxyComponent.py:270-274 | the count is the number of names, plus one when the redshift is truthy |
| `HostGalaxy.HostGalaxyComponent.InitialValues` | source/spamm/components/HostGalaxyComponent.py:163-175 | norm_min is N zeros, norm_max is N copies of the smoothed flux maximum, the dispersion bounds are 30 and 600, and the N+1 values returned each lie within their bounds; a missing or empty flux raises and changes nothing |
| `HostGalaxy.HostGalaxyComponent.Initialize` | source/spamm/components/HostGalaxyComponent.py:191-205 | no spectrum raises and changes nothing; otherwise the buffer is fresh zeros as long as the wavelength axis and the resampled lists are reset to empty before the templates load, so a failed load leaves them empty; on success each template is resampled and has its flux at the (cached) median wavelength |
| `HostGalaxy.HostGalaxyComponent.ResampleTemplates` | source/spamm/components/HostGalaxyComponent.py:200-205 | the loop leaves every template resampled on the wavelengths, in order, and each template's flux at the normalisation wavelength, which is cached by the first template; with no templates nothing but the empty lists remains |
| `HostGalaxy.HostGalaxyComponent.NormalizationWavelength` | source/spamm/components/HostGalaxyComponent.py:228-232 | the result follows the cache-once rule and only the cache field changes |
| `HostGalaxy.HostGalaxyComponent.LnPriors` | source/spamm/components/HostGalaxyComponent.py:242-265 | the list built in the loop is `HostLnPriors` over the loaded templates |
| `HostGalaxy.HostGalaxyComponent.Flux` | source/spamm/components/HostGalaxyComponent.py:283-298 | succeeds exactly when the templates load, the parameter count matches, the component is bound and, with templates, the resampled list has one entry per template (otherwise indexing it raises IndexError); it then returns the shared buffer holding Σ_i (p_i / nf_i · F0) · T_i, and a failed call leaves the buffer as it was |
| `HostGalaxy.NormalizationWavelengthTwice` | source/spamm/components/HostGalaxyComponent.py:228-232 | a second call returns the first call's median whatever it passes |
| `HostGalaxy.FluxTwice` | source/spamm/components/HostGalaxyComponent.py:294-298 | two flux calls return the same array, which then holds the second flux |
| `NuclearContinuum.IndexOf` | source/spamm/components/NuclearContinuumComponent.py:87-88 | the index found is the first occurrence of the name; none means the name is absent |
| `NuclearContinuum.ParameterLayout` | source/spamm/components/NuclearContinuumComponent.py:28-30 | the normalisation is parameter 0 and the slope parameter 1 |
| `Components.ChainedLnPrior` | source/spamm/components/NuclearContinuumComponent.py:90-100 | `lo < x < hi` either raises or gives 0 or −1e17 |
| `Components.ChainedLnPriorMeaning` | source/spamm/components/NuclearContinuumComponent.py:90-100 | `lo < x < hi` with both bounds set is the flat prior; it raises exactly when lo is None, or when hi is None and lo < x |
| `NuclearContinuum.NuclearLnPriors` | source/spamm/components/NuclearContinuumComponent.py:85-103 | fewer than two parameters raise; otherwise the priors raise or give two entries, each 0 or −1e17 |
| `NuclearContinuum.NuclearLnPriorsMeaning` | source/spamm/components/NuclearContinuumComponent.py:90-103 | two entries; each is 0 if and only if its parameter is strictly inside its bounds, and −1e17 otherwise, bounds included |
| `NuclearContinuum.NuclearLnPriorsTooFew` | source/spamm/components/NuclearContinuumComponent.py:87-88 | fewer than two parameters raise IndexError, and an unset normalisation bound raises |
| `NuclearContinuum.PowerLawFlux` | source/spamm/components/NuclearContinuumComponent.py:113-115 | one flux value per wavelength |
| `NuclearContinuum.PowerLawFluxFlat` | source/spamm/components/NuclearContinuumComponent.py:115 | with slope 0 the flux equals the normalisation at every wavelength |
| `NuclearContinuum.PowerLawFluxAtNormalizationWavelength` | source/spamm/components/NuclearContinuumComponent.py:113-115 | at the normalisation wavelength the flux is the normalisation, whatever the slope |
| `NuclearContinuum.PowerLawFluxScales` | source/spamm/components/NuclearContinuumComponent.py:115 | the flux is proportional to the normalisation |
| `NuclearContinuum.NuclearContinuumComponent.constructor` | source/spamm/components/NuclearContinuumComponent.py:25-37 | the names are ["normalization", "slope"] and every bound and cache starts unset |
| `NuclearContinuum.NuclearContinuumComponent.InitialValues` | source/spamm/components/NuclearContinuumComponent.py:51-63 | flux_min is 0 even when the call raises; on success flux_max is the smoothed flux maximum, the slope bounds are −3 and 3, two values are returned within those bounds, and the normalisation bounds are untouched |
| `NuclearContinuum.NuclearContinuumComponent.InitialValuesIntended` | source/spamm/components/NuclearContinuumComponent.py:53-54 | as above, and the normalisation bounds are also set, to 0 and the smoothed flux maximum |
| `NuclearContinuum.NuclearContinuumComponent.NormalizationWavelength` | source/spamm/components/NuclearContinuumComponent.py:70-74 | the same cache-once rule as the host component |
| `NuclearContinuum.NuclearContinuumComponent.LnPriors` | source/spamm/components/NuclearContinuumComponent.py:85-103 | the list built by name lookup and appends is `NuclearLnPriors` |
| `NuclearContinuum.NuclearContinuumComponent.Flux` | source/spamm/components/NuclearContinuumComponent.py:110-117 | anything but two parameters raises and changes nothing; otherwise λ0 is cached and the result is F0 · (λ/λ0)^α at each wavelength |
| `NuclearContinuum.PriorsAfterInitialValues` | source/spamm/components/NuclearContinuumComponent.py:34-35 | on a fresh component, `ln_priors` after `initial_values` raises for every two-parameter input |
| `NuclearContinuum.PriorsAfterInitialValuesIntended` | source/spamm/components/NuclearContinuumComponent.py:90 | with the intended bounds both priors are evaluated: 0 inside (0, flux max) and (−3, 3), rejected elsewhere |
| `RunSpamm.ParseComps` | spamm/run_spamm.py:171-180 | the list never shrinks, and when it changes it came from a single argument and no piece holds a comma |
| `RunSpamm.ParseCompsSplits` | spamm/run_spamm.py:172-174 | a single argument with commas splits into one more piece than commas, none holding a comma, and joining them with "," gives it back |
| `RunSpamm.ParseCompsIdentity` | spamm/run_spamm.py:171-180 | the list is returned unchanged if and only if it is not a single argument holding a comma |
| `RunSpamm.UpperAll` | spamm/run_spamm.py:65 | one upper-cased name per requested name |
| `RunSpamm.ComponentFlags` | spamm/run_spamm.py:65-66 | the keys are exactly the accepted component names |
| `RunSpamm.DistinctCardinality` | spamm/run_spamm.py:22 | distinct accepted names give as many keys as names |
| `RunSpamm.ComponentFlagsMeaning` | spamm/run_spamm.py:65-66 | exactly the 10 accepted names are keys; a flag is set if and only if some requested name, upper-cased, equals it |
| `RunSpamm.ComponentFlagsCaseInsensitive` | spamm/run_spamm.py:65 | upper-casing the requests first changes no flag |
| `RunSpamm.ComponentFlagsUnicodeSpellings` | spamm/run_spamm.py:65 | names that only Unicode upper-casing maps to an accepted name ("hoſt" and "hoﬆ" both set HOST) set its flag |
| `RunSpamm.ComponentFlagsIgnoresUnknown` | spamm/run_spamm.py:66 | a name that is not an accepted component changes no flag |
| `RunSpamm.WithDefaults` | spamm/run_spamm.py:87-89 | no key is dropped, and every key added is one of the default keys |
| `RunSpamm.WithDefaultsKeys` | spamm/run_spamm.py:87-89 | the keys afterwards are the old keys plus every key zip reaches |
| `RunSpamm.WithDefaultsPreserves` | spamm/run_spamm.py:88 | a key already present keeps its value |
| `RunSpamm.WithDefaultsFills` | spamm/run_spamm.py:88-89 | a missing key gets the value paired with its first occurrence |
| `RunSpamm.WithDefaultsNoOp` | spamm/run_spamm.py:88 | when every key is present nothing changes |
| `RunSpamm.WithDefaultsIdempotent` | spamm/run_spamm.py:87-89 | filling in defaults twice is the same as once |
| `RunSpamm.CompParams.constructor` | spamm/run_spamm.py:86 | a new dictionary holds the entries given |
| `RunSpamm.CompParams.SetDefaults` | spamm/run_spamm.py:87-89 | the in-place loop leaves the dictionary as `WithDefaults` of its old entries |
| `RunSpamm.FillCompParams` | spamm/run_spamm.py:85-89 | a missing dictionary is replaced by a new one; a given one is updated in place and returned |
| `RunSpamm.CompParamsDefaults` | spamm/run_spamm.py:85-89 | afterwards "wl", "flux", "err" and "components" are present, the caller's entries are unchanged, and each missing key holds the run's value |
| `RunSpamm.NormalizedPicklefile` | spamm/run_spamm.py:143-151 | a given pickle name keeps its basename as a prefix |
| `RunSpamm.OutputNames` | spamm/run_spamm.py:142-154 | the pickle name is normalised; the output directory defaults to the timestamp; with both defaulted, the pickle name is "model_" + directory + ".pickle.gz" |
| `RunSpamm.BasenameOfPlain` | spamm/run_spamm.py:146 | the basename of a name without '/' is the name |
| `RunSpamm.PicklefileSuffix` | spamm/run_spamm.py:146-151 | a given name becomes its basename plus "", ".gz" or ".pickle.gz": "" exactly when it ends in ".gz", ".gz" exactly when it instead ends in ".pickle" or ".p" |
| `RunSpamm.PicklefileEndsWithGz` | spamm/run_spamm.py:143-151 | the normalised name always ends in ".gz" and holds no '/' |
| `RunSpamm.PicklefileIdempotent` | spamm/run_spamm.py:143-151 | normalising a normalised name gives it back |

## Left out

- Numerics: floating-point rounding, NaN and infinity are not modelled; fluxes are exact reals.
- Numerics.Median: `np.median` of an empty array (NaN with a warning) is not modelled. The callers require wavelengths to be non-empty where a median would be taken.
- Text.UpperString: upper-cases ASCII letters and the characters whose Python upper case is all ASCII (ı, ſ, ß and the Latin ligatures ﬀ–ﬆ); every other character is kept. Python maps some of those others to different characters, but each such result still holds a non-ASCII character, so it never equals an accepted component name and no flag depends on the difference.
- HostGalaxy.HostGalaxyComponent.Initialize: requires a non-empty wavelength axis whenever a spectrum is given. The median is only taken when there is a template and nothing is cached, so this is stronger than the source needs.
- HostGalaxy.HostGalaxyComponent.Flux: requires every normalisation flux to be non-zero. NumPy would divide by zero and give inf/nan instead of raising.
- NuclearContinuum.NuclearContinuumComponent.Flux: requires a non-zero normalisation wavelength, for the same reason.
- `scipy.interpolate.interp1d` is a total function parameter. Its ValueError for wavelengths outside a template's range is not modelled.
- `np.power` is a function parameter. Only 1^α = 1 and x^0 = 1 are assumed, and only in the lemmas that need them.
- Opening files and `np.loadtxt` are modelled as lookups in the `TemplateLibrary` maps. The working directory and file-format errors are not modelled.
- `np.random.uniform` is a nondeterministic choice within the closed interval between its bounds. The distribution is not modelled.
- Calls with `parameters=None` (TypeError from `len(None)`) are not modelled; parameters are always a sequence.
- `is_analytic` and `native_wavelength_grid` are constant stubs and are not modelled.
- In `spamm`, the following are external I/O or library calls and are not modelled:
  - the spectrum conversion through specutils;
  - `parse_pars`;
  - the model construction and MCMC run;
  - the printing;
  - gzip/dill pickling;
  - `os.makedirs`, `os.path.join` and plotting.
- The extinction branch of `spamm` refers to undefined names and is not modelled.
- The components' base class, `Model` and `Spectrum` are not part of this model.

## Findings

| source | as written | input that shows it | evidently intended | confidence | as-written member | corrected member |
|---|---|---|---|---|---|---|
| source/spamm/components/NuclearContinuumComponent.py:53-54 | `initial_values` sets `flux_min`/`flux_max`, but `ln_priors` (line 90) compares against `normalization_min`/`normalization_max`, which stay None from the constructor | a fresh component, `initial_values` on any spectrum with non-empty flux, then `ln_priors([1.0, 0.0])`: a TypeError under Python 3 (under Python 2 the normalisation would always be rejected) | `initial_values` sets the normalisation bounds that `ln_priors` reads, to 0 and the smoothed flux maximum | not executed | `NuclearContinuum.PriorsAfterInitialValues` | `NuclearContinuum.PriorsAfterInitialValuesIntended` |
