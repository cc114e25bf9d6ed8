/**
 * The host galaxy component: N stellar templates, one normalisation per
 * template plus a stellar velocity dispersion, a flat prior on each, and a
 * flux that is the sum of the interpolated templates scaled so that each
 * normalisation is measured in units of the data's flux at the
 * normalisation wavelength. The dispersion is sampled and prior-checked
 * but does not enter the flux.
 */
module HostGalaxy {
  import opened Wrappers
  import opened Text
  import opened Numerics
  import opened Components

  /** A template spectrum as np.loadtxt reads it: wavelengths and fluxes. */
  datatype Template = Template(wavelengths: seq<real>, flux: seq<real>)

  /**
   * The files the component reads. A text file is the sequence of lines
   * that iterating over the open file yields (each but possibly the last
   * ends with "\n"); a template table is the pair of columns np.loadtxt
   * returns. A path that is in neither map cannot be opened.
   */
  datatype TemplateLibrary = TemplateLibrary(textFiles: map<string, seq<string>>, tables: map<string, Template>)

  /** scipy.interpolate.interp1d(t.wavelengths, t.flux), evaluated at one wavelength. */
  type Interpolator = (Template, real) -> real

  const DefaultTemplateList := "../Host_templates/default_list_of_templates.txt"
  const StellarDispersionMin: real := 30.0
  const StellarDispersionMax: real := 600.0

  const NoSpectrumMessage := "Exception: The data spectrum must be specified to initializeHostGalaxyComponent."
  const EmptyFluxMessage := "ValueError: the flux array of the data spectrum is empty"
  const EmptyParamsMessage := "IndexError: list index out of range"
  const ParamsIndexMessage := "IndexError: fewer normalizations than templates"
  const NoneSubscriptMessage := "TypeError: 'NoneType' object is not subscriptable"
  const WrongParameterCountMessage := "AssertionError: The wrong number of indices were provided"
  const NotInitializedMessage := "TypeError: the component was not initialized"
  const NoSpectrumAttributeMessage := "AttributeError: 'NoneType' object has no attribute"
  const UnboundTemplateMessage := "IndexError: list index out of range"

  function TemplateSetMessage(name: string): string
  {
    "Exception: Host galaxy template set '" + name + "' not found."
  }

  function NoSuchFileMessage(path: string): string
  {
    "FileNotFoundError: " + path
  }

  // ---------------------------------------------------------------------------
  // The template list file

  predicate IsComment(line: string)
  {
    StartsWith(line, "#")
  }

  /** The template file names a list file names: its lines that are not comments, with trailing "\n" removed. */
  function TemplateFilenames(lines: seq<string>): (names: seq<string>)
    ensures |names| <= |lines|
  {
    if |lines| == 0 then []
    else
      var last := lines[|lines| - 1];
      TemplateFilenames(lines[..|lines| - 1]) + (if IsComment(last) then [] else [RStrip(last, '\n')])
  }

  /** The list is read line by line: reading two parts of a file one after the other gives the names of both. */
  lemma {:induction false} TemplateFilenamesAppend(a: seq<string>, b: seq<string>)
    ensures TemplateFilenames(a + b) == TemplateFilenames(a) + TemplateFilenames(b)
    decreases |b|
  {
    if |b| == 0 {
      assert a + b == a;
    } else {
      var b' := b[..|b| - 1];
      var last := b[|b| - 1];
      var tail := if IsComment(last) then [] else [RStrip(last, '\n')];
      TemplateFilenamesAppend(a, b');
      assert (a + b)[..|a + b| - 1] == a + b';
      calc {
        TemplateFilenames(a + b);
        TemplateFilenames(a + b') + tail;
        TemplateFilenames(a) + TemplateFilenames(b') + tail;
        TemplateFilenames(a) + (TemplateFilenames(b') + tail);
      }
    }
  }

  /**
   * A name is listed exactly when some non-comment line, stripped of its
   * trailing newlines, is that name; no listed name ends in "\n".
   */
  lemma TemplateFilenamesMembership(lines: seq<string>, name: string)
    ensures name in TemplateFilenames(lines)
        <==> exists i :: 0 <= i < |lines| && !IsComment(lines[i]) && RStrip(lines[i], '\n') == name
    ensures name in TemplateFilenames(lines) ==> |name| == 0 || name[|name| - 1] != '\n'
  {
    if name in TemplateFilenames(lines) {
      TemplateFilenamesListed(lines, name);
    }
    if exists i :: 0 <= i < |lines| && !IsComment(lines[i]) && RStrip(lines[i], '\n') == name {
      var i :| 0 <= i < |lines| && !IsComment(lines[i]) && RStrip(lines[i], '\n') == name;
      TemplateFilenamesComplete(lines, i);
    }
  }

  /** Every listed name comes from a non-comment line, and so ends in no newline. */
  lemma {:induction false} TemplateFilenamesListed(lines: seq<string>, name: string)
    requires name in TemplateFilenames(lines)
    ensures exists i :: 0 <= i < |lines| && !IsComment(lines[i]) && RStrip(lines[i], '\n') == name
  {
    var k := |lines| - 1;
    var init := lines[..k];
    if name in TemplateFilenames(init) {
      TemplateFilenamesListed(init, name);
      var i :| 0 <= i < |init| && !IsComment(init[i]) && RStrip(init[i], '\n') == name;
      assert lines[i] == init[i];
    } else {
      assert !IsComment(lines[k]) && RStrip(lines[k], '\n') == name;
    }
  }

  /** Every non-comment line is listed, stripped. */
  lemma {:induction false} TemplateFilenamesComplete(lines: seq<string>, i: nat)
    requires i < |lines| && !IsComment(lines[i])
    ensures RStrip(lines[i], '\n') in TemplateFilenames(lines)
  {
    var k := |lines| - 1;
    var init := lines[..k];
    if i < k {
      TemplateFilenamesComplete(init, i);
      assert init[i] == lines[i];
    }
  }

  /** Without comment lines every line is kept, in order, blank lines included (as empty names). */
  lemma {:induction false} TemplateFilenamesKeepsAll(lines: seq<string>)
    requires forall i :: 0 <= i < |lines| ==> !IsComment(lines[i])
    ensures |TemplateFilenames(lines)| == |lines|
    ensures forall i :: 0 <= i < |lines| ==> TemplateFilenames(lines)[i] == RStrip(lines[i], '\n')
  {
    if |lines| > 0 {
      TemplateFilenamesKeepsAll(lines[..|lines| - 1]);
    }
  }

  /** A comment line contributes nothing, wherever it stands. */
  lemma TemplateFilenamesSkipsComment(a: seq<string>, comment: string, b: seq<string>)
    requires IsComment(comment)
    ensures TemplateFilenames(a + [comment] + b) == TemplateFilenames(a + b)
  {
    TemplateFilenamesAppend(a + [comment], b);
    TemplateFilenamesAppend(a, [comment]);
    TemplateFilenamesAppend(a, b);
    assert [comment][..0] == [];
  }

  /**
   * The first half of _load_host_templates: a named template set raises,
   * the default list file must exist, and its non-comment lines are the
   * template file names. An empty list is accepted.
   */
  method ReadTemplateList(templateSet: Option<string>, textFiles: map<string, seq<string>>) returns (r: Result<seq<string>>)
    ensures templateSet.Some? ==> r == Failure(TemplateSetMessage(templateSet.value))
    ensures templateSet.None? && DefaultTemplateList !in textFiles ==> r.Failure?
    ensures templateSet.None? && DefaultTemplateList in textFiles
            ==> r == Success(TemplateFilenames(textFiles[DefaultTemplateList]))
  {
    if templateSet.Some? {
      return Failure(TemplateSetMessage(templateSet.value));
    }
    if DefaultTemplateList !in textFiles {
      return Failure(NoSuchFileMessage(DefaultTemplateList));
    }
    var lines := textFiles[DefaultTemplateList];
    var filenames: seq<string> := [];
    for i := 0 to |lines|
      invariant filenames == TemplateFilenames(lines[..i])
    {
      assert lines[..i + 1][..i] == lines[..i];
      if !IsComment(lines[i]) {
        filenames := filenames + [RStrip(lines[i], '\n')];
      }
    }
    assert lines[..|lines|] == lines;
    return Success(filenames);
  }

  // ---------------------------------------------------------------------------
  // Reading the template files

  predicate AllReadable(names: seq<string>, tables: map<string, Template>)
  {
    forall i :: 0 <= i < |names| ==> names[i] in tables
  }

  /** The templates read, in order, before the first file that cannot be opened. */
  function LoadedTemplates(names: seq<string>, tables: map<string, Template>): (ts: seq<Template>)
    ensures |ts| <= |names|
    ensures forall i :: 0 <= i < |ts| ==> names[i] in tables && ts[i] == tables[names[i]]
  {
    if |names| == 0 || names[0] !in tables then []
    else [tables[names[0]]] + LoadedTemplates(names[1..], tables)
  }

  lemma {:induction false} LoadedTemplatesSnoc(names: seq<string>, x: string, tables: map<string, Template>)
    requires AllReadable(names, tables)
    ensures LoadedTemplates(names + [x], tables)
         == LoadedTemplates(names, tables) + (if x in tables then [tables[x]] else [])
  {
    if |names| > 0 {
      LoadedTemplatesSnoc(names[1..], x, tables);
      assert (names + [x])[1..] == names[1..] + [x];
    }
  }

  lemma {:induction false} LoadedTemplatesStop(names: seq<string>, i: nat, tables: map<string, Template>)
    requires i < |names| && AllReadable(names[..i], tables) && names[i] !in tables
    ensures LoadedTemplates(names, tables) == LoadedTemplates(names[..i], tables)
  {
    if i > 0 {
      LoadedTemplatesStop(names[1..], i - 1, tables);
      assert names[1..][..i - 1] == names[..i][1..];
    }
  }

  /** When every file opens, one template is read per listed name, in the order of the list. */
  lemma {:induction false} LoadedTemplatesAll(names: seq<string>, tables: map<string, Template>)
    requires AllReadable(names, tables)
    ensures |LoadedTemplates(names, tables)| == |names|
    ensures forall i :: 0 <= i < |names| ==> LoadedTemplates(names, tables)[i] == tables[names[i]]
  {
    if |names| > 0 {
      LoadedTemplatesAll(names[1..], tables);
    }
  }

  /** _templates after _load_host_templates() starting from None: None when the list file is missing, else what was read. */
  function LoadedCache(library: TemplateLibrary): Option<seq<Template>>
  {
    if DefaultTemplateList !in library.textFiles then None
    else Some(LoadedTemplates(TemplateFilenames(library.textFiles[DefaultTemplateList]), library.tables))
  }

  /** _load_host_templates() returns without raising. */
  predicate LoadSucceeds(library: TemplateLibrary)
  {
    DefaultTemplateList in library.textFiles
    && AllReadable(TemplateFilenames(library.textFiles[DefaultTemplateList]), library.tables)
  }

  // ---------------------------------------------------------------------------
  // Parameter layout

  /** "normalization_1" ... "normalization_N", then "stellar dispersion". */
  function ParameterNamesFor(n: nat): (names: seq<string>)
    ensures |names| == n + 1 && names[n] == "stellar dispersion"
  {
    seq(n, i requires 0 <= i < n => "normalization_" + NatToString(i + 1)) + ["stellar dispersion"]
  }

  /**
   * N + 1 names: the i-th (from 0) is "normalization_" followed by the
   * decimal number i + 1, the last is "stellar dispersion", and no two are equal.
   */
  lemma ParameterNamesLayout(n: nat)
    ensures |ParameterNamesFor(n)| == n + 1
    ensures ParameterNamesFor(n)[n] == "stellar dispersion"
    ensures forall i :: 0 <= i < n ==>
              StartsWith(ParameterNamesFor(n)[i], "normalization_")
              && ParseDecimal(ParameterNamesFor(n)[i][14..]) == i + 1
    ensures forall i, j :: 0 <= i < j <= n ==> ParameterNamesFor(n)[i] != ParameterNamesFor(n)[j]
  {
    var names := ParameterNamesFor(n);
    forall i | 0 <= i < n
      ensures StartsWith(names[i], "normalization_") && ParseDecimal(names[i][14..]) == i + 1
    {
      assert names[i][14..] == NatToString(i + 1);
      ParseNatToString(i + 1);
    }
    forall i, j | 0 <= i < j <= n ensures names[i] != names[j] {
      if j == n {
        assert names[i][0] == 'n' && names[j][0] == 's';
      }
    }
  }

  /** Python truthiness of the redshift: neither None nor 0. */
  predicate Truthy(z: Option<real>)
  {
    z.Some? && z.value != 0.0
  }

  /** parameter_count: N + 1, plus one more when the redshift is set. */
  function ParameterCountFor(n: nat, z: Option<real>): nat
  {
    n + 1 + (if Truthy(z) then 1 else 0)
  }

  // ---------------------------------------------------------------------------
  // Priors

  /** The normalisation bounds, when set, have an entry for every template. */
  predicate BoundsFit(normMin: Option<seq<real>>, normMax: Option<seq<real>>, n: nat)
  {
    (normMin.Some? ==> |normMin.value| >= n) && (normMax.Some? ==> |normMax.value| >= n)
  }

  /** The flat prior of each of the first n normalisations within its own bounds. */
  function NormalizationLnPriors(lo: seq<real>, hi: seq<real>, params: seq<real>, n: nat): (r: seq<real>)
    requires |lo| >= n && |hi| >= n && |params| >= n
    ensures |r| == n
  {
    seq(n, i requires 0 <= i < n => FlatLnPrior(lo[i], params[i], hi[i]))
  }

  /**
   * The loop of ln_priors over the first i normalisations, compared as
   * norm_min[i] < params[i] < norm_max[i]: an unset lower bound raises at
   * once, a missing parameter raises, and the upper bound is only read
   * (and only raises when unset) once the lower comparison holds.
   */
  function NormalizationLnPriorsChained(normMin: Option<seq<real>>, normMax: Option<seq<real>>,
                                        params: seq<real>, i: nat): (r: Result<seq<real>>)
    requires BoundsFit(normMin, normMax, i)
    ensures r.Success? ==> |r.value| == i
    ensures r.Success? ==> forall k :: 0 <= k < i ==> r.value[k] == 0.0 || r.value[k] == LnPriorReject
    decreases i
  {
    if i == 0 then Success([])
    else
      var prev :- NormalizationLnPriorsChained(normMin, normMax, params, i - 1);
      var k := i - 1;
      if normMin.None? then Failure(NoneSubscriptMessage)
      else if k >= |params| - 1 then Failure(ParamsIndexMessage)
      else if !(normMin.value[k] < params[k]) then Success(prev + [LnPriorReject])
      else if normMax.None? then Failure(NoneSubscriptMessage)
      else Success(prev + [FlatLnPrior(normMin.value[k], params[k], normMax.value[k])])
  }

  /** Once the loop raises, it raises with the same error however long it was meant to run. */
  lemma {:induction false} NormalizationLnPriorsFailureSticks(normMin: Option<seq<real>>, normMax: Option<seq<real>>,
                                                              params: seq<real>, i: nat, n: nat)
    requires i <= n && BoundsFit(normMin, normMax, n)
    requires NormalizationLnPriorsChained(normMin, normMax, params, i).Failure?
    ensures NormalizationLnPriorsChained(normMin, normMax, params, n)
         == NormalizationLnPriorsChained(normMin, normMax, params, i)
    decreases n
  {
    if i < n {
      NormalizationLnPriorsFailureSticks(normMin, normMax, params, i, n - 1);
    }
  }

  /** With both bounds set and enough parameters, every normalisation gets its flat prior. */
  lemma {:induction false} NormalizationLnPriorsBothSet(lo: seq<real>, hi: seq<real>, params: seq<real>, i: nat)
    requires |lo| >= i && |hi| >= i && |params| >= i + 1
    ensures NormalizationLnPriorsChained(Some(lo), Some(hi), params, i) == Success(NormalizationLnPriors(lo, hi, params, i))
  {
    if i > 0 {
      NormalizationLnPriorsBothSet(lo, hi, params, i - 1);
      assert NormalizationLnPriors(lo, hi, params, i)
          == NormalizationLnPriors(lo, hi, params, i - 1) + [FlatLnPrior(lo[i - 1], params[i - 1], hi[i - 1])];
    }
  }

  /** An unset lower bound, or too few parameters, makes the loop raise. */
  lemma {:induction false} NormalizationLnPriorsRaises(normMin: Option<seq<real>>, normMax: Option<seq<real>>,
                                                       params: seq<real>, i: nat)
    requires BoundsFit(normMin, normMax, i) && i > 0
    requires normMin.None? || |params| < i + 1
    ensures NormalizationLnPriorsChained(normMin, normMax, params, i).Failure?
  {
    if i > 1 && NormalizationLnPriorsChained(normMin, normMax, params, i - 1).Success? {
      if normMin.Some? && |params| >= i {
        assert |params| == i;
      } else {
        NormalizationLnPriorsRaises(normMin, normMax, params, i - 1);
      }
    }
  }

  /**
   * Python's chained comparison stops at the first false test: with the
   * upper bounds unset, normalisations that are not above their lower
   * bounds are still rejected without raising.
   */
  lemma {:induction false} NormalizationLnPriorsShortCircuit(lo: seq<real>, params: seq<real>, i: nat)
    requires |lo| >= i && |params| >= i + 1
    requires forall k :: 0 <= k < i ==> params[k] <= lo[k]
    ensures NormalizationLnPriorsChained(Some(lo), None, params, i) == Success(seq(i, _ => LnPriorReject))
  {
    if i > 0 {
      NormalizationLnPriorsShortCircuit(lo, params, i - 1);
      assert seq(i, _ => LnPriorReject) == seq(i - 1, _ => LnPriorReject) + [LnPriorReject];
    } else {
      assert seq(i, _ => LnPriorReject) == [];
    }
  }

  /** The loop reads only the parameters before the i-th. */
  lemma {:induction false} NormalizationLnPriorsReadsPrefix(normMin: Option<seq<real>>, normMax: Option<seq<real>>,
                                                            p1: seq<real>, p2: seq<real>, i: nat)
    requires BoundsFit(normMin, normMax, i) && |p1| == |p2|
    requires forall k :: 0 <= k < i && k < |p1| ==> p1[k] == p2[k]
    ensures NormalizationLnPriorsChained(normMin, normMax, p1, i) == NormalizationLnPriorsChained(normMin, normMax, p2, i)
  {
    if i > 0 {
      NormalizationLnPriorsReadsPrefix(normMin, normMax, p1, p2, i - 1);
    }
  }

  /**
   * ln_priors(params) for n templates: a flat prior per normalisation
   * params[i] and one on the dispersion, which is read from the LAST entry.
   * Comparing with a bound that is None raises (Python 3).
   */
  function HostLnPriors(normMin: Option<seq<real>>, normMax: Option<seq<real>>,
                        dispersionMin: Option<real>, dispersionMax: Option<real>,
                        n: nat, params: seq<real>): (r: Result<seq<real>>)
    requires BoundsFit(normMin, normMax, n)
    ensures r.Success? ==> |r.value| == n + 1
    ensures r.Success? ==> forall k :: 0 <= k <= n ==> r.value[k] == 0.0 || r.value[k] == LnPriorReject
  {
    if |params| == 0 then Failure(EmptyParamsMessage)
    else
      var norms :- NormalizationLnPriorsChained(normMin, normMax, params, n);
      var dispersion :- ChainedLnPrior(dispersionMin, params[|params| - 1], dispersionMax);
      Success(norms + [dispersion])
  }

  /**
   * When the priors can be evaluated, for bounds set in pairs as the
   * component sets them: enough parameters and every bound compared set.
   */
  lemma HostLnPriorsDefined(normMin: Option<seq<real>>, normMax: Option<seq<real>>,
                            dispersionMin: Option<real>, dispersionMax: Option<real>,
                            n: nat, params: seq<real>)
    requires BoundsFit(normMin, normMax, n)
    requires (normMin.Some? <==> normMax.Some?) && (dispersionMin.Some? <==> dispersionMax.Some?)
    ensures HostLnPriors(normMin, normMax, dispersionMin, dispersionMax, n, params).Success?
        <==> |params| >= n + 1 && (n > 0 ==> normMin.Some? && normMax.Some?)
             && dispersionMin.Some? && dispersionMax.Some?
  {
    if |params| > 0 {
      if n > 0 && (normMin.None? || |params| < n + 1) {
        NormalizationLnPriorsRaises(normMin, normMax, params, n);
      } else if n > 0 {
        NormalizationLnPriorsBothSet(normMin.value, normMax.value, params, n);
      }
      ChainedLnPriorMeaning(dispersionMin, params[|params| - 1], dispersionMax);
    }
  }

  /**
   * N + 1 entries; entry i is 0 exactly when norm_min[i] < params[i] < norm_max[i]
   * and the rejection sentinel otherwise; the last is 0 exactly when the last
   * parameter lies strictly between the dispersion bounds.
   */
  lemma HostLnPriorsMeaning(normMin: Option<seq<real>>, normMax: Option<seq<real>>,
                            dispersionMin: real, dispersionMax: real,
                            n: nat, params: seq<real>)
    requires BoundsFit(normMin, normMax, n) && |params| >= n + 1
    requires n > 0 ==> normMin.Some? && normMax.Some?
    ensures var r := HostLnPriors(normMin, normMax, Some(dispersionMin), Some(dispersionMax), n, params);
      && r.Success? && |r.value| == n + 1
      && (forall i :: 0 <= i < n ==>
            && (r.value[i] == 0.0 <==> normMin.value[i] < params[i] < normMax.value[i])
            && (r.value[i] != 0.0 ==> r.value[i] == LnPriorReject))
      && (r.value[n] == 0.0 <==> dispersionMin < params[|params| - 1] < dispersionMax)
      && (r.value[n] != 0.0 ==> r.value[n] == LnPriorReject)
  {
    if n > 0 {
      NormalizationLnPriorsBothSet(normMin.value, normMax.value, params, n);
    }
    ChainedLnPriorMeaning(Some(dispersionMin), params[|params| - 1], Some(dispersionMax));
  }

  /**
   * With the bounds initial_values sets (0 and the smoothed flux maximum,
   * 30 and 600), a value on a bound is rejected, and when the maximum is not
   * positive no normalisation is accepted at all.
   */
  lemma HostLnPriorsAtInitialBounds(n: nat, ceiling: real, params: seq<real>)
    requires |params| >= n + 1
    ensures var r := HostLnPriors(Some(seq(n, _ => 0.0)), Some(seq(n, _ => ceiling)),
                                  Some(StellarDispersionMin), Some(StellarDispersionMax), n, params);
      && r.Success? && |r.value| == n + 1
      && (forall i :: 0 <= i < n && (params[i] == 0.0 || params[i] == ceiling) ==> r.value[i] == LnPriorReject)
      && (ceiling <= 0.0 ==> forall i :: 0 <= i < n ==> r.value[i] == LnPriorReject)
      && (params[|params| - 1] in {StellarDispersionMin, StellarDispersionMax} ==> r.value[n] == LnPriorReject)
  {
    HostLnPriorsMeaning(Some(seq(n, _ => 0.0)), Some(seq(n, _ => ceiling)), StellarDispersionMin, StellarDispersionMax, n, params);
  }

  /**
   * The dispersion is read from the last parameter, so when a redshift adds
   * a parameter the entry in the dispersion's named slot is never checked.
   */
  lemma HostLnPriorsIgnoresNamedDispersionSlot(normMin: Option<seq<real>>, normMax: Option<seq<real>>,
                                               dispersionMin: Option<real>, dispersionMax: Option<real>,
                                               n: nat, params: seq<real>, other: real)
    requires BoundsFit(normMin, normMax, n)
    requires |params| == n + 2
    ensures HostLnPriors(normMin, normMax, dispersionMin, dispersionMax, n, params)
         == HostLnPriors(normMin, normMax, dispersionMin, dispersionMax, n, params[n := other])
  {
    var p' := params[n := other];
    assert p'[|p'| - 1] == params[|params| - 1];
    NormalizationLnPriorsReadsPrefix(normMin, normMax, params, p', n);
  }

  // ---------------------------------------------------------------------------
  // Flux

  predicate NonZero(s: seq<real>)
  {
    forall i :: 0 <= i < |s| ==> s[i] != 0.0
  }

  function Zeros(n: nat): seq<real>
  {
    seq(n, _ => 0.0)
  }

  /** p_i / nf_i * F0 for each template i: the factor applied to interpolated template i. */
  function NormalizationScales(params: seq<real>, normFlux: seq<real>, f0: real): (s: seq<real>)
    requires |params| >= |normFlux| && NonZero(normFlux)
    ensures |s| == |normFlux|
  {
    seq(|normFlux|, i requires 0 <= i < |normFlux| => params[i] / normFlux[i] * f0)
  }

  /**
   * The normalisation convention: with p_i equal to template i's flux at the
   * normalisation wavelength the factor is F0, and in general template i
   * contributes p_i * F0 at the normalisation wavelength.
   */
  lemma NormalizationConvention(params: seq<real>, normFlux: seq<real>, f0: real, i: nat)
    requires |params| >= |normFlux| && NonZero(normFlux) && i < |normFlux|
    ensures params[i] == normFlux[i] ==> NormalizationScales(params, normFlux, f0)[i] == f0
    ensures NormalizationScales(params, normFlux, f0)[i] * normFlux[i] == params[i] * f0
  {
    var p, nf := params[i], normFlux[i];
    assert p / nf * nf == p;
    calc {
      NormalizationScales(params, normFlux, f0)[i] * nf;
      p / nf * f0 * nf;
      (p / nf * nf) * f0;
      p * f0;
    }
  }

  function AddScaled(acc: seq<real>, s: real, t: seq<real>): (r: seq<real>)
    requires |t| == |acc|
    ensures |r| == |acc|
  {
    seq(|acc|, j requires 0 <= j < |acc| => acc[j] + s * t[j])
  }

  predicate Shaped(arrays: seq<seq<real>>, len: nat)
  {
    forall i :: 0 <= i < |arrays| ==> |arrays[i]| == len
  }

  /** The buffer after adding scales[i] * arrays[i] to zeros, template after template. */
  function LinearCombination(scales: seq<real>, arrays: seq<seq<real>>, len: nat): (r: seq<real>)
    requires |scales| == |arrays| && Shaped(arrays, len)
    ensures |r| == len
    decreases |scales|
  {
    if |scales| == 0 then Zeros(len)
    else
      var k := |scales| - 1;
      AddScaled(LinearCombination(scales[..k], arrays[..k], len), scales[k], arrays[k])
  }

  /** The independent reading: Σ_i scales[i] * arrays[i][j], summed from the first template. */
  function WeightedSumAt(scales: seq<real>, arrays: seq<seq<real>>, j: nat): real
    requires |scales| == |arrays|
    requires forall i :: 0 <= i < |arrays| ==> j < |arrays[i]|
  {
    if |scales| == 0 then 0.0
    else scales[0] * arrays[0][j] + WeightedSumAt(scales[1..], arrays[1..], j)
  }

  lemma {:induction false} WeightedSumAtSnoc(scales: seq<real>, arrays: seq<seq<real>>, j: nat)
    requires |scales| == |arrays| > 0
    requires forall i :: 0 <= i < |arrays| ==> j < |arrays[i]|
    ensures var k := |scales| - 1;
      WeightedSumAt(scales, arrays, j) == WeightedSumAt(scales[..k], arrays[..k], j) + scales[k] * arrays[k][j]
  {
    var k := |scales| - 1;
    if k > 0 {
      WeightedSumAtSnoc(scales[1..], arrays[1..], j);
      assert scales[1..][..k - 1] == scales[..k][1..];
      assert arrays[1..][..k - 1] == arrays[..k][1..];
    }
  }

  /** Entry j of the accumulated buffer is Σ_i scales[i] * arrays[i][j]. */
  lemma {:induction false} LinearCombinationAt(scales: seq<real>, arrays: seq<seq<real>>, len: nat, j: nat)
    requires |scales| == |arrays| && Shaped(arrays, len) && j < len
    ensures LinearCombination(scales, arrays, len)[j] == WeightedSumAt(scales, arrays, j)
    decreases |scales|
  {
    if |scales| > 0 {
      var k := |scales| - 1;
      LinearCombinationAt(scales[..k], arrays[..k], len, j);
      WeightedSumAtSnoc(scales, arrays, j);
    }
  }

  /** The flux is linear in the scales: the buffer for s1 + s2 is the sum of the buffers. */
  lemma {:induction false} LinearCombinationAdditive(s1: seq<real>, s2: seq<real>, arrays: seq<seq<real>>, len: nat)
    requires |s1| == |s2| == |arrays| && Shaped(arrays, len)
    ensures var sum := seq(|s1|, i requires 0 <= i < |s1| => s1[i] + s2[i]);
      forall j :: 0 <= j < len ==>
        LinearCombination(sum, arrays, len)[j]
        == LinearCombination(s1, arrays, len)[j] + LinearCombination(s2, arrays, len)[j]
    decreases |s1|
  {
    if |s1| > 0 {
      var k := |s1| - 1;
      var sum := seq(|s1|, i requires 0 <= i < |s1| => s1[i] + s2[i]);
      LinearCombinationAdditive(s1[..k], s2[..k], arrays[..k], len);
      assert sum[..k] == seq(k, i requires 0 <= i < k => s1[..k][i] + s2[..k][i]);
    }
  }

  /** All scales zero leaves the zeroed buffer as it is. */
  lemma {:induction false} LinearCombinationOfZeros(scales: seq<real>, arrays: seq<seq<real>>, len: nat)
    requires |scales| == |arrays| && Shaped(arrays, len)
    requires forall i :: 0 <= i < |scales| ==> scales[i] == 0.0
    ensures LinearCombination(scales, arrays, len) == Zeros(len)
    decreases |scales|
  {
    if |scales| > 0 {
      LinearCombinationOfZeros(scales[..|scales| - 1], arrays[..|arrays| - 1], len);
    }
  }

  /** The host flux for a parameter vector: Σ_i (p_i / nf_i * F0) * T_i. */
  function HostFlux(params: seq<real>, normFlux: seq<real>, f0: real, arrays: seq<seq<real>>, len: nat): (r: seq<real>)
    requires |params| >= |normFlux| && NonZero(normFlux)
    requires |arrays| == |normFlux| && Shaped(arrays, len)
    ensures |r| == len
  {
    LinearCombination(NormalizationScales(params, normFlux, f0), arrays, len)
  }

  /** The stellar dispersion, and anything after the normalisations, has no effect on the flux. */
  lemma HostFluxIgnoresDispersion(p1: seq<real>, p2: seq<real>, normFlux: seq<real>, f0: real,
                                  arrays: seq<seq<real>>, len: nat)
    requires |p1| >= |normFlux| && |p2| >= |normFlux| && NonZero(normFlux)
    requires |arrays| == |normFlux| && Shaped(arrays, len)
    requires p1[..|normFlux|] == p2[..|normFlux|]
    ensures HostFlux(p1, normFlux, f0, arrays, len) == HostFlux(p2, normFlux, f0, arrays, len)
  {
    var n := |normFlux|;
    var s1, s2 := NormalizationScales(p1, normFlux, f0), NormalizationScales(p2, normFlux, f0);
    forall i | 0 <= i < n ensures s1[i] == s2[i] {
      assert p1[i] == p1[..n][i] == p2[..n][i] == p2[i];
    }
    assert s1 == s2;
  }

  /** Entry j of the host flux, written out. */
  lemma HostFluxAt(params: seq<real>, normFlux: seq<real>, f0: real, arrays: seq<seq<real>>, len: nat, j: nat)
    requires |params| >= |normFlux| && NonZero(normFlux)
    requires |arrays| == |normFlux| && Shaped(arrays, len) && j < len
    ensures HostFlux(params, normFlux, f0, arrays, len)[j]
         == WeightedSumAt(NormalizationScales(params, normFlux, f0), arrays, j)
    ensures forall i :: 0 <= i < |normFlux| ==> NormalizationScales(params, normFlux, f0)[i] == params[i] / normFlux[i] * f0
  {
    LinearCombinationAt(NormalizationScales(params, normFlux, f0), arrays, len, j);
  }

  /** f(spectrum.wavelengths) for the interpolant f of template t. */
  function Resample(interp: Interpolator, t: Template, wavelengths: seq<real>): (r: seq<real>)
    ensures |r| == |wavelengths|
  {
    seq(|wavelengths|, j requires 0 <= j < |wavelengths| => interp(t, wavelengths[j]))
  }

  /** Every template resampled on the same wavelengths. */
  function ResampleAll(interp: Interpolator, ts: seq<Template>, wavelengths: seq<real>): (r: seq<seq<real>>)
    ensures |r| == |ts| && Shaped(r, |wavelengths|)
  {
    seq(|ts|, i requires 0 <= i < |ts| => Resample(interp, ts[i], wavelengths))
  }

  /** Every template's interpolated flux at one wavelength. */
  function FluxesAt(interp: Interpolator, ts: seq<Template>, w: real): (r: seq<real>)
    ensures |r| == |ts|
  {
    seq(|ts|, i requires 0 <= i < |ts| => interp(ts[i], w))
  }

  /** The norm list of flux(): p_i / nf_i * F0 for each template, built one entry at a time. */
  method ScaleNormalizations(params: seq<real>, normFlux: seq<real>, f0: real) returns (norm: seq<real>)
    requires |params| >= |normFlux| && NonZero(normFlux)
    ensures norm == NormalizationScales(params, normFlux, f0)
  {
    norm := [];
    for i := 0 to |normFlux|
      invariant |norm| == i
      invariant forall k :: 0 <= k < i ==> norm[k] == params[k] / normFlux[k] * f0
    {
      norm := norm + [params[i] / normFlux[i] * f0];
    }
    var scales := NormalizationScales(params, normFlux, f0);
    forall k | 0 <= k < |normFlux| ensures norm[k] == scales[k] {
    }
  }

  /** Zero the buffer in place, then add norm[i] * arrays[i] to it for each template in turn. */
  method AccumulateInto(buffer: array<real>, norm: seq<real>, arrays: seq<seq<real>>)
    requires |norm| == |arrays| && Shaped(arrays, buffer.Length)
    modifies buffer
    ensures buffer[..] == LinearCombination(norm, arrays, buffer.Length)
  {
    forall j | 0 <= j < buffer.Length {
      buffer[j] := 0.0;
    }
    for i := 0 to |norm|
      invariant buffer[..] == LinearCombination(norm[..i], arrays[..i], buffer.Length)
    {
      ghost var before := buffer[..];
      for j := 0 to buffer.Length
        invariant forall k :: 0 <= k < j ==> buffer[k] == before[k] + norm[i] * arrays[i][k]
        invariant forall k :: j <= k < buffer.Length ==> buffer[k] == before[k]
      {
        buffer[j] := buffer[j] + norm[i] * arrays[i][j];
      }
      assert norm[..i + 1][..i] == norm[..i];
      assert arrays[..i + 1][..i] == arrays[..i];
      forall k | 0 <= k < buffer.Length
        ensures buffer[k] == AddScaled(before, norm[i], arrays[i])[k]
      {
      }
      assert buffer[..] == AddScaled(before, norm[i], arrays[i]);
    }
    assert norm[..|norm|] == norm && arrays[..|arrays|] == arrays;
  }

  // ---------------------------------------------------------------------------
  // The component

  class HostGalaxyComponent {
    /** The files the lazy template loader reads. */
    const library: TemplateLibrary
    /** The redshift attribute of the component base; truthy when set and non-zero. */
    const z: Option<real>

    var templates: Option<seq<Template>>
    var interpolatedTemplates: Option<seq<seq<real>>>
    var interpolatedNormalizationFlux: Option<seq<real>>
    var fluxArrays: array?<real>
    var normWavelength: Option<real>
    var normMin: Option<seq<real>>
    var normMax: Option<seq<real>>
    var stellarDispersionMin: Option<real>
    var stellarDispersionMax: Option<real>

    /** Once read, the templates are what the loader reads from the library. */
    ghost predicate CacheValid()
      reads this
    {
      templates.Some? ==> templates == LoadedCache(library)
    }

    /** Prior bounds are set in pairs, one normalisation bound per template. */
    ghost predicate BoundsValid()
      reads this
    {
      && (normMin.Some? <==> normMax.Some?)
      && (normMin.Some? ==> templates.Some? && |normMin.value| == |templates.value| && |normMax.value| == |templates.value|)
      && (stellarDispersionMin.Some? <==> stellarDispersionMax.Some?)
    }

    /**
     * After the bind step: one interpolated array, as long as the buffer, and
     * one scalar per template. A bind step whose template load raised leaves
     * both lists empty.
     */
    ghost predicate BufferValid()
      reads this
    {
      && (interpolatedTemplates.Some? <==> interpolatedNormalizationFlux.Some?)
      && (interpolatedTemplates.Some? ==>
            && fluxArrays != null
            && |interpolatedNormalizationFlux.value| == |interpolatedTemplates.value|
            && (|interpolatedTemplates.value| == 0 || (templates.Some? && |interpolatedTemplates.value| == |templates.value|))
            && Shaped(interpolatedTemplates.value, fluxArrays.Length))
    }

    ghost predicate Valid()
      reads this
    {
      CacheValid() && BoundsValid() && BufferValid()
    }

    /** The templates are known: already cached, or the loader will succeed. */
    ghost predicate Loadable()
      reads this
    {
      templates.Some? || LoadSucceeds(library)
    }

    constructor (library: TemplateLibrary, z: Option<real>)
      ensures Valid()
      ensures this.library == library && this.z == z
      ensures templates.None? && interpolatedTemplates.None? && interpolatedNormalizationFlux.None?
      ensures fluxArrays == null && normWavelength.None?
      ensures normMin.None? && normMax.None? && stellarDispersionMin.None? && stellarDispersionMax.None?
    {
      this.library := library;
      this.z := z;
      templates := None;
      interpolatedTemplates := None;
      interpolatedNormalizationFlux := None;
      fluxArrays := null;
      normWavelength := None;
      normMin := None;
      normMax := None;
      stellarDispersionMin := None;
      stellarDispersionMax := None;
    }

    /**
     * _load_host_templates(template_set): read the list, then each template
     * file in order. A file that cannot be opened raises, leaving the
     * templates read so far cached.
     */
    method LoadHostTemplates(templateSet: Option<string>) returns (r: Result<()>)
      requires CacheValid()
      modifies this`templates
      ensures CacheValid()
      ensures templateSet.Some? || DefaultTemplateList !in library.textFiles
              ==> r.Failure? && templates == old(templates)
      ensures templateSet.None? && DefaultTemplateList in library.textFiles
              ==> templates == LoadedCache(library) && (r.Success? <==> LoadSucceeds(library))
    {
      var names :- ReadTemplateList(templateSet, library.textFiles);
      templates := Some([]);
      for i := 0 to |names|
        invariant AllReadable(names[..i], library.tables)
        invariant templates == Some(LoadedTemplates(names[..i], library.tables))
      {
        if names[i] !in library.tables {
          LoadedTemplatesStop(names, i, library.tables);
          return Failure(NoSuchFileMessage(names[i]));
        }
        LoadedTemplatesSnoc(names[..i], names[i], library.tables);
        assert names[..i + 1] == names[..i] + [names[i]];
        templates := Some(templates.value + [library.tables[names[i]]]);
      }
      assert names[..|names|] == names;
      return Success(());
    }

    /** The templates property: load on first access, then return the cached list. */
    method Templates() returns (r: Result<seq<Template>>)
      requires CacheValid()
      modifies this`templates
      ensures CacheValid()
      ensures templates == if old(templates).Some? then old(templates) else LoadedCache(library)
      ensures r.Success? <==> old(Loadable())
      ensures r.Success? ==> templates == Some(r.value)
    {
      if templates.None? {
        if DefaultTemplateList !in library.textFiles {
          return Failure(NoSuchFileMessage(DefaultTemplateList));
        }
        var loaded := LoadHostTemplates(None);
        if loaded.Failure? {
          return Failure(loaded.error);
        }
      }
      return Success(templates.value);
    }

    /** model_parameter_names: one normalisation name per template, then the dispersion. */
    method ParameterNames() returns (r: Result<seq<string>>)
      requires Valid()
      modifies this`templates
      ensures Valid()
      ensures templates == if old(templates).Some? then old(templates) else LoadedCache(library)
      ensures r.Success? <==> old(Loadable())
      ensures r.Success? ==> r.value == ParameterNamesFor(|templates.value|)
    {
      var ts :- Templates();
      var names: seq<string> := [];
      for i := 1 to |ts| + 1
        invariant names == seq(i - 1, k requires 0 <= k < i - 1 => "normalization_" + NatToString(k + 1))
      {
        names := names + ["normalization_" + NatToString(i)];
      }
      return Success(names + ["stellar dispersion"]);
    }

    /** parameter_count: the number of templates plus one, plus one more for a truthy redshift. */
    method ParameterCount() returns (r: Result<nat>)
      requires Valid()
      modifies this`templates
      ensures Valid()
      ensures templates == if old(templates).Some? then old(templates) else LoadedCache(library)
      ensures r.Success? <==> old(Loadable())
      ensures r.Success? ==> r.value == |ParameterNamesFor(|templates.value|)| + (if Truthy(z) then 1 else 0)
    {
      var ts :- Templates();
      ParameterNamesLayout(|ts|);
      var count := |ts| + 1;
      if Truthy(z) {
        count := count + 1;
      }
      return Success(count);
    }

    /**
     * initial_values(spectrum): set the normalisation bounds to 0 and the
     * maximum of the smoothed data flux, the dispersion bounds to 30 and 600,
     * and draw one value uniformly within each pair of bounds.
     */
    method InitialValues(spectrum: Option<Spectrum>) returns (r: Result<seq<real>>)
      requires Valid()
      modifies this`templates, this`normMin, this`normMax, this`stellarDispersionMin, this`stellarDispersionMax
      ensures Valid()
      ensures spectrum.None? || |spectrum.value.flux| == 0 ==> r.Failure? && unchanged(this)
      ensures spectrum.Some? && |spectrum.value.flux| > 0
              ==> templates == (if old(templates).Some? then old(templates) else LoadedCache(library))
                  && (r.Success? <==> old(Loadable()))
      ensures r.Failure? ==> normMin == old(normMin) && normMax == old(normMax)
                             && stellarDispersionMin == old(stellarDispersionMin)
                             && stellarDispersionMax == old(stellarDispersionMax)
      ensures r.Success? ==>
        && spectrum.Some? && |spectrum.value.flux| > 0 && templates.Some?
        && var n := |templates.value|;
           var ceiling := SmoothedFluxMax(spectrum.value.flux);
           && normMin == Some(seq(n, _ => 0.0))
           && normMax == Some(seq(n, _ => ceiling))
           && stellarDispersionMin == Some(StellarDispersionMin)
           && stellarDispersionMax == Some(StellarDispersionMax)
           && |r.value| == n + 1
           && (forall i :: 0 <= i < n ==> Drawn(r.value[i], 0.0, ceiling))
           && Drawn(r.value[n], StellarDispersionMin, StellarDispersionMax)
    {
      if spectrum.None? {
        return Failure(NoSpectrumAttributeMessage);
      }
      if |spectrum.value.flux| == 0 {
        return Failure(EmptyFluxMessage);
      }
      var fluxMax := SmoothedFluxMax(spectrum.value.flux);
      var ts :- Templates();
      var n := |ts|;
      var lows, highs := seq(n, _ => 0.0), seq(n, _ => fluxMax);
      normMin := Some(lows);
      normMax := Some(highs);
      var normInit := DrawUniforms(lows, highs);
      stellarDispersionMin := Some(StellarDispersionMin);
      stellarDispersionMax := Some(StellarDispersionMax);
      var dispersionInit := DrawUniform(StellarDispersionMin, StellarDispersionMax);
      return Success(normInit + [dispersionInit]);
    }

    /**
     * The state initialize(spectrum) leaves: each template resampled on the
     * data's wavelengths, the normalisation wavelength found (when there is a
     * template), and each template's flux at it.
     */
    ghost predicate BoundTo(wavelengths: seq<real>, interp: Interpolator, cachedNorm: Option<real>)
      reads this
      requires templates.Some? && |wavelengths| > 0
    {
      var ts := templates.value;
      && interpolatedTemplates == Some(ResampleAll(interp, ts, wavelengths))
      && (|ts| == 0 ==> normWavelength == cachedNorm && interpolatedNormalizationFlux == Some([]))
      && (|ts| > 0 ==>
            && normWavelength == Some(NormalizationWavelengthOf(cachedNorm, Some(wavelengths)).value)
            && interpolatedNormalizationFlux == Some(FluxesAt(interp, ts, normWavelength.value)))
    }

    /**
     * initialize(spectrum): allocate a zeroed flux buffer as long as the
     * data's wavelength axis, then bind every template to that axis.
     */
    method Initialize(spectrum: Option<Spectrum>, interp: Interpolator) returns (r: Result<()>)
      requires Valid()
      requires spectrum.Some? ==> |spectrum.value.wavelengths| > 0
      modifies this`fluxArrays, this`templates, this`interpolatedTemplates, this`interpolatedNormalizationFlux, this`normWavelength
      ensures Valid()
      ensures spectrum.None? ==> r.Failure? && unchanged(this)
      ensures spectrum.Some? ==>
        && fresh(fluxArrays) && fluxArrays[..] == Zeros(|spectrum.value.wavelengths|)
        && templates == (if old(templates).Some? then old(templates) else LoadedCache(library))
        && (r.Success? <==> old(Loadable()))
      ensures spectrum.Some? && r.Failure? ==>
        && interpolatedTemplates == Some([]) && interpolatedNormalizationFlux == Some([])
        && normWavelength == old(normWavelength)
      ensures r.Success? ==> spectrum.Some? && templates.Some? && BoundTo(spectrum.value.wavelengths, interp, old(normWavelength))
    {
      if spectrum.None? {
        return Failure(NoSpectrumMessage);
      }
      var wavelengths := spectrum.value.wavelengths;
      var buffer := new real[|wavelengths|](_ => 0.0);
      fluxArrays := buffer;
      interpolatedTemplates := Some([]);
      interpolatedNormalizationFlux := Some([]);
      var ts :- Templates();
      ResampleTemplates(ts, wavelengths, interp);
      return Success(());
    }

    /**
     * The loop of initialize(spectrum): resample each template on the
     * wavelengths and record its flux at the normalisation wavelength,
     * which the first template fixes.
     */
    method ResampleTemplates(ts: seq<Template>, wavelengths: seq<real>, interp: Interpolator)
      requires |wavelengths| > 0
      requires interpolatedTemplates == Some([]) && interpolatedNormalizationFlux == Some([])
      modifies this`interpolatedTemplates, this`interpolatedNormalizationFlux, this`normWavelength
      ensures interpolatedTemplates == Some(ResampleAll(interp, ts, wavelengths))
      ensures |ts| == 0 ==> normWavelength == old(normWavelength) && interpolatedNormalizationFlux == Some([])
      ensures |ts| > 0 ==>
        && normWavelength == Some(NormalizationWavelengthOf(old(normWavelength), Some(wavelengths)).value)
        && interpolatedNormalizationFlux == Some(FluxesAt(interp, ts, normWavelength.value))
    {
      for i := 0 to |ts|
        invariant interpolatedTemplates == Some(ResampleAll(interp, ts[..i], wavelengths))
        invariant i == 0 ==> normWavelength == old(normWavelength) && interpolatedNormalizationFlux == Some([])
        invariant i > 0 ==>
          && normWavelength == Some(NormalizationWavelengthOf(old(normWavelength), Some(wavelengths)).value)
          && interpolatedNormalizationFlux == Some(FluxesAt(interp, ts[..i], normWavelength.value))
      {
        assert ts[..i + 1] == ts[..i] + [ts[i]];
        assert ResampleAll(interp, ts[..i + 1], wavelengths)
            == ResampleAll(interp, ts[..i], wavelengths) + [Resample(interp, ts[i], wavelengths)];
        interpolatedTemplates := Some(interpolatedTemplates.value + [Resample(interp, ts[i], wavelengths)]);
        var fnw := NormalizationWavelength(Some(wavelengths));
        assert FluxesAt(interp, ts[..i + 1], fnw.value) == FluxesAt(interp, ts[..i], fnw.value) + [interp(ts[i], fnw.value)];
        interpolatedNormalizationFlux := Some(interpolatedNormalizationFlux.value + [interp(ts[i], fnw.value)]);
      }
      assert ts[..|ts|] == ts;
    }

    /** normalization_wavelength(wavelengths): the median of the first wavelengths given, cached. */
    method NormalizationWavelength(wavelengths: Option<seq<real>>) returns (r: Result<real>)
      requires normWavelength.None? && wavelengths.Some? ==> |wavelengths.value| > 0
      modifies this`normWavelength
      ensures r == NormalizationWavelengthOf(old(normWavelength), wavelengths)
      ensures normWavelength == if r.Success? then Some(r.value) else old(normWavelength)
    {
      if normWavelength.None? {
        if wavelengths.None? {
          return Failure(NoWavelengthsMessage);
        }
        normWavelength := Some(Median(wavelengths.value));
      }
      return Success(normWavelength.value);
    }

    /** ln_priors(params), as HostLnPriors states it, over the templates read on first access. */
    method LnPriors(params: seq<real>) returns (r: Result<seq<real>>)
      requires Valid()
      modifies this`templates
      ensures Valid()
      ensures templates == if old(templates).Some? || |params| == 0 then old(templates) else LoadedCache(library)
      ensures |params| == 0 ==> r == Failure(EmptyParamsMessage)
      ensures |params| > 0 && !old(Loadable()) ==> r.Failure?
      ensures |params| > 0 && old(Loadable()) ==>
        && templates.Some? && BoundsFit(normMin, normMax, |templates.value|)
        && r == HostLnPriors(normMin, normMax, stellarDispersionMin, stellarDispersionMax, |templates.value|, params)
    {
      if |params| == 0 {
        return Failure(EmptyParamsMessage);
      }
      var stellarDispersion := params[|params| - 1];
      var ts :- Templates();
      var n := |ts|;
      assert BoundsFit(normMin, normMax, n);
      var lnPriorNorms := new real[n](_ => 0.0);
      for i := 0 to n
        invariant templates == Some(ts)
        invariant NormalizationLnPriorsChained(normMin, normMax, params, i) == Success(lnPriorNorms[..i])
      {
        if normMin.None? || normMax.None? {
          NormalizationLnPriorsFailureSticks(normMin, normMax, params, i + 1, n);
          return Failure(NoneSubscriptMessage);
        }
        if i >= |params| - 1 {
          NormalizationLnPriorsFailureSticks(normMin, normMax, params, i + 1, n);
          return Failure(ParamsIndexMessage);
        }
        if normMin.value[i] < params[i] < normMax.value[i] {
          lnPriorNorms[i] := 0.0;
        } else {
          lnPriorNorms[i] := LnPriorReject;
        }
        assert lnPriorNorms[..i + 1] == lnPriorNorms[..i] + [lnPriorNorms[i]];
      }
      assert lnPriorNorms[..] == lnPriorNorms[..n];
      if stellarDispersionMin.None? {
        return Failure(NoneComparisonMessage);
      }
      var lnPriorStellarDispersion := LnPriorReject;
      if stellarDispersionMin.value < stellarDispersion {
        if stellarDispersionMax.None? {
          return Failure(NoneComparisonMessage);
        }
        if stellarDispersion < stellarDispersionMax.value {
          lnPriorStellarDispersion := 0.0;
        }
      }
      return Success(lnPriorNorms[..] + [lnPriorStellarDispersion]);
    }

    /** The flux the buffer holds after flux(spectrum, parameters) succeeds. */
    ghost function ExpectedFlux(f0: real, parameters: seq<real>, len: nat): seq<real>
      reads this
      requires templates.Some? && |parameters| >= |templates.value|
      requires |templates.value| > 0 ==>
        interpolatedNormalizationFlux.Some? && |interpolatedNormalizationFlux.value| == |templates.value|
      requires interpolatedNormalizationFlux.Some? ==> NonZero(interpolatedNormalizationFlux.value)
      requires BufferValid() && (interpolatedTemplates.Some? ==> fluxArrays.Length == len)
    {
      if |templates.value| == 0 then Zeros(len)
      else HostFlux(parameters, interpolatedNormalizationFlux.value, f0, interpolatedTemplates.value, len)
    }

    /**
     * flux(spectrum, parameters): check the parameter count, scale each
     * normalisation by the data's flux over the template's flux at the
     * normalisation wavelength, zero the shared buffer and accumulate the
     * scaled templates into it. The buffer itself is returned.
     */
    method Flux(spectrum: Option<Spectrum>, parameters: seq<real>) returns (r: Result<array<real>>)
      requires Valid()
      requires interpolatedNormalizationFlux.Some? ==> NonZero(interpolatedNormalizationFlux.value)
      modifies this`templates, fluxArrays
      ensures Valid()
      ensures templates == if old(templates).Some? then old(templates) else LoadedCache(library)
      ensures r.Success? <==>
        && old(Loadable())
        && |parameters| == ParameterCountFor(|templates.value|, z)
        && (|templates.value| > 0 ==>
              && interpolatedNormalizationFlux.Some? && |interpolatedNormalizationFlux.value| == |templates.value|
              && spectrum.Some?)
        && fluxArrays != null
      ensures r.Success? ==>
        && r.value == fluxArrays
        && r.value[..] == ExpectedFlux(if spectrum.Some? then spectrum.value.fluxAtNormalizationWavelength else 0.0,
                                       parameters, r.value.Length)
      ensures r.Failure? && fluxArrays != null ==> fluxArrays[..] == old(fluxArrays[..])
    {
      var ts :- Templates();
      var n := |ts|;
      if |parameters| != ParameterCountFor(n, z) {
        return Failure(WrongParameterCountMessage);
      }
      var norm: seq<real> := [];
      var arrays: seq<seq<real>> := [];
      var f0 := 0.0;
      if n > 0 {
        if interpolatedNormalizationFlux.None? {
          return Failure(NotInitializedMessage);
        }
        if |interpolatedNormalizationFlux.value| == 0 {
          return Failure(UnboundTemplateMessage);
        }
        if spectrum.None? {
          return Failure(NoSpectrumAttributeMessage);
        }
        f0 := spectrum.value.fluxAtNormalizationWavelength;
        norm := ScaleNormalizations(parameters, interpolatedNormalizationFlux.value, f0);
        arrays := interpolatedTemplates.value;
      }
      if fluxArrays == null {
        return Failure(NotInitializedMessage);
      }
      var buffer := fluxArrays;
      AccumulateInto(buffer, norm, arrays);
      return Success(buffer);
    }
  }
  /**
   * The normalisation wavelength is computed on the first call and returned
   * by every later one, whatever wavelengths that call passes.
   */
  method NormalizationWavelengthTwice(c: HostGalaxyComponent, first: seq<real>, later: Option<seq<real>>)
    returns (a: Result<real>, b: Result<real>)
    requires c.normWavelength.None? && |first| > 0
    modifies c`normWavelength
    ensures a == Success(Median(first)) && b == a
    ensures c.normWavelength == Some(Median(first))
  {
    a := c.NormalizationWavelength(Some(first));
    b := c.NormalizationWavelength(later);
  }

  /**
   * flux returns the component's one buffer: a second evaluation hands back
   * the same array, and the first result now holds the second flux.
   */
  method FluxTwice(c: HostGalaxyComponent, spectrum: Spectrum, p1: seq<real>, p2: seq<real>)
    returns (first: array<real>, second: array<real>)
    requires c.Valid() && c.templates.Some? && c.interpolatedTemplates.Some?
    requires |c.interpolatedTemplates.value| == |c.templates.value|
    requires NonZero(c.interpolatedNormalizationFlux.value)
    requires |p1| == |p2| == ParameterCountFor(|c.templates.value|, c.z)
    modifies c`templates, c.fluxArrays
    ensures c.Valid() && c.templates == old(c.templates)
    ensures first == second && first == c.fluxArrays
    ensures second[..] == c.ExpectedFlux(spectrum.fluxAtNormalizationWavelength, p2, second.Length)
  {
    var r1 := c.Flux(Some(spectrum), p1);
    var r2 := c.Flux(Some(spectrum), p2);
    first, second := r1.value, r2.value;
  }
}
