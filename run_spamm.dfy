/**
 * The bookkeeping of the run script: which components a run asks for, the
 * known values stored beside the fit, and the names the results are saved
 * under. The fit itself, the pickling and the plotting are not part of it.
 */
module RunSpamm {
  import opened Wrappers
  import opened Text

  /** The component names a run accepts, upper case. */
  const AcceptedComps: seq<string> :=
    ["PL", "FE", "HOST", "BC", "BPC", "CALZETTI_EXT", "SMC_EXT", "MW_EXT", "AGN_EXT", "LMC_EXT"]

  // ---------------------------------------------------------------------------
  // parse_comps

  /** A single argument holding commas is split on them; any other argument list is returned as given. */
  function ParseComps(argcomp: seq<string>): (r: seq<string>)
    ensures |r| >= |argcomp|
    ensures r != argcomp ==> |argcomp| == 1 && forall p :: p in r ==> ',' !in p
  {
    if |argcomp| == 1 && ',' in argcomp[0] then Split(argcomp[0], ',') else argcomp
  }

  /**
   * Splitting one comma-separated argument: one more piece than commas
   * (empty pieces kept), no piece holds a comma, and joining the pieces with
   * commas gives the argument back.
   */
  lemma ParseCompsSplits(arg: string)
    requires ',' in arg
    ensures |ParseComps([arg])| == Count(arg, ',') + 1 >= 2
    ensures forall p :: p in ParseComps([arg]) ==> ',' !in p
    ensures Join(ParseComps([arg]), ',') == arg
  {
    SplitCount(arg, ',');
    CountPositive(arg, ',');
    JoinSplit(arg, ',');
  }

  /** The argument list comes back unchanged exactly when it is not a single argument holding a comma. */
  lemma ParseCompsIdentity(argcomp: seq<string>)
    ensures ParseComps(argcomp) == argcomp <==> !(|argcomp| == 1 && ',' in argcomp[0])
  {
    if |argcomp| == 1 && ',' in argcomp[0] {
      ParseCompsSplits(argcomp[0]);
    }
  }

  // ---------------------------------------------------------------------------
  // The component flags

  /** The requested names, upper-cased. */
  function UpperAll(complist: seq<string>): (r: seq<string>)
    ensures |r| == |complist|
  {
    seq(|complist|, i requires 0 <= i < |complist| => UpperString(complist[i]))
  }

  /** One flag per accepted component: set when the component was asked for, in any letter case. */
  function ComponentFlags(complist: seq<string>): (flags: map<string, bool>)
    ensures flags.Keys == set k | k in AcceptedComps
  {
    var requested := UpperAll(complist);
    map k | k in AcceptedComps :: k in requested
  }

  predicate Distinct(s: seq<string>)
  {
    forall i, j :: 0 <= i < j < |s| ==> s[i] != s[j]
  }

  lemma {:induction false} DistinctCardinality(s: seq<string>)
    requires Distinct(s)
    ensures |set k | k in s| == |s|
  {
    if |s| > 0 {
      var rest := s[1..];
      DistinctCardinality(rest);
      assert (set k | k in s) == (set k | k in rest) + {s[0]};
      assert s[0] !in rest by {
        forall i | 0 <= i < |rest| ensures rest[i] != s[0] {
          assert rest[i] == s[i + 1];
        }
      }
    }
  }

  /**
   * The flag map has exactly the ten accepted names as keys; a flag is set
   * exactly when some requested name, upper-cased, equals it.
   */
  lemma ComponentFlagsMeaning(complist: seq<string>)
    ensures ComponentFlags(complist).Keys == set k | k in AcceptedComps
    ensures |ComponentFlags(complist)| == 10
    ensures forall k :: k in AcceptedComps ==>
              (ComponentFlags(complist)[k] <==> exists i :: 0 <= i < |complist| && UpperString(complist[i]) == k)
  {
    assert Distinct(AcceptedComps) by {
      forall i, j | 0 <= i < j < |AcceptedComps| ensures AcceptedComps[i] != AcceptedComps[j] {
        var a, b := AcceptedComps[i], AcceptedComps[j];
        assert |a| != |b| || a[0] != b[0] || a[1] != b[1];
      }
    }
    DistinctCardinality(AcceptedComps);
    var flags := ComponentFlags(complist);
    assert flags.Keys == set k | k in AcceptedComps;
    forall k | k in AcceptedComps
      ensures flags[k] <==> exists i :: 0 <= i < |complist| && UpperString(complist[i]) == k
    {
      var requested := UpperAll(complist);
      if k in requested {
        var i :| 0 <= i < |requested| && requested[i] == k;
        assert UpperString(complist[i]) == k;
      }
      if exists i :: 0 <= i < |complist| && UpperString(complist[i]) == k {
        var i :| 0 <= i < |complist| && UpperString(complist[i]) == k;
        assert requested[i] == k;
      }
    }
  }

  /** The letter case of the requested names does not matter. */
  lemma ComponentFlagsCaseInsensitive(complist: seq<string>)
    ensures ComponentFlags(UpperAll(complist)) == ComponentFlags(complist)
  {
    forall i | 0 <= i < |complist|
      ensures UpperAll(UpperAll(complist))[i] == UpperAll(complist)[i]
    {
      UpperStringIdempotent(complist[i]);
    }
    assert UpperAll(UpperAll(complist)) == UpperAll(complist);
  }

  /**
   * str.upper is Unicode-aware: a long s or an "st" ligature in a requested
   * name upper-cases into plain letters and sets that component.
   */
  lemma ComponentFlagsUnicodeSpellings()
    ensures ComponentFlags(["ho\U{017F}t"])["HOST"]
    ensures ComponentFlags(["ho\U{FB06}"])["HOST"]
  {
    UpperHoLongSt();
    FlagSetBy("ho\U{017F}t", "HOST");
    UpperHoStLigature();
    FlagSetBy("ho\U{FB06}", "HOST");
  }

  lemma UpperHoLongSt()
    ensures UpperString("ho\U{017F}t") == "HOST"
  {
    assert UpperString("") == "";
    assert UpperString("t") == "T";
    assert UpperString("\U{017F}t") == "ST";
    assert UpperString("o\U{017F}t") == "OST";
  }

  lemma UpperHoStLigature()
    ensures UpperString("ho\U{FB06}") == "HOST"
  {
    assert UpperString("") == "";
    assert UpperString("\U{FB06}") == "ST";
    assert UpperString("o\U{FB06}") == "OST";
  }

  /** A single requested name whose upper case is an accepted name sets that flag. */
  lemma FlagSetBy(name: string, k: string)
    requires k in AcceptedComps && UpperString(name) == k
    ensures ComponentFlags([name])[k]
  {
    assert UpperAll([name])[0] == k;
  }

  /** A name that is not an accepted component, in any case, changes no flag. */
  lemma ComponentFlagsIgnoresUnknown(complist: seq<string>, name: string)
    requires UpperString(name) !in AcceptedComps
    ensures ComponentFlags(complist + [name]) == ComponentFlags(complist)
  {
    var before, after := UpperAll(complist), UpperAll(complist + [name]);
    assert after == before + [UpperString(name)];
    forall k | k in AcceptedComps ensures (k in after) == (k in before) {
    }
  }

  // ---------------------------------------------------------------------------
  // The comp_params defaults

  /** The keys the run fills in when the caller did not give them, in order. */
  const DefaultKeys: seq<string> := ["wl", "flux", "err", "components"]

  /**
   * for k, v in zip(keys, values): if k not in m: m[k] = v.
   * zip stops at the shorter sequence.
   */
  function WithDefaults<V>(m: map<string, V>, keys: seq<string>, values: seq<V>): (r: map<string, V>)
    ensures m.Keys <= r.Keys
    ensures forall k :: k in r && k !in m ==> k in keys
    decreases |keys|
  {
    if |keys| == 0 || |values| == 0 then m
    else WithDefaults(if keys[0] in m then m else m[keys[0] := values[0]], keys[1..], values[1..])
  }

  /** The pairs zip yields before the i-th. */
  function Zipped(keys: seq<string>, i: nat): set<string>
  {
    set j | 0 <= j < |keys| && j < i :: keys[j]
  }

  /** The keys afterwards: the old ones, plus every key that zip reaches. */
  lemma {:induction false} WithDefaultsKeys<V>(m: map<string, V>, keys: seq<string>, values: seq<V>)
    ensures WithDefaults(m, keys, values).Keys == m.Keys + Zipped(keys, |values|)
    decreases |keys|
  {
    if |keys| > 0 && |values| > 0 {
      var m' := if keys[0] in m then m else m[keys[0] := values[0]];
      WithDefaultsKeys(m', keys[1..], values[1..]);
      var n := if |values| <= |keys| then |values| else |keys|;
      assert keys[..n] == [keys[0]] + keys[1..][..n - 1];
      assert Zipped(keys, |values|) == {keys[0]} + Zipped(keys[1..], |values| - 1);
    } else {
      assert Zipped(keys, |values|) == {};
    }
  }

  /** A key the caller gave keeps its value. */
  lemma {:induction false} WithDefaultsPreserves<V>(m: map<string, V>, keys: seq<string>, values: seq<V>, k: string)
    requires k in m
    ensures k in WithDefaults(m, keys, values) && WithDefaults(m, keys, values)[k] == m[k]
    decreases |keys|
  {
    if |keys| > 0 && |values| > 0 {
      var m' := if keys[0] in m then m else m[keys[0] := values[0]];
      WithDefaultsPreserves(m', keys[1..], values[1..], k);
    }
  }

  /** A missing key gets the value paired with its first occurrence among the keys. */
  lemma {:induction false} WithDefaultsFills<V>(m: map<string, V>, keys: seq<string>, values: seq<V>, i: nat)
    requires i < |keys| && i < |values| && keys[i] !in m
    requires forall j :: 0 <= j < i ==> keys[j] != keys[i]
    ensures keys[i] in WithDefaults(m, keys, values) && WithDefaults(m, keys, values)[keys[i]] == values[i]
    decreases i
  {
    var m' := if keys[0] in m then m else m[keys[0] := values[0]];
    if i == 0 {
      WithDefaultsPreserves(m', keys[1..], values[1..], keys[0]);
    } else {
      WithDefaultsFills(m', keys[1..], values[1..], i - 1);
    }
  }

  /** Filling in defaults a second time changes nothing. */
  lemma {:induction false} WithDefaultsIdempotent<V>(m: map<string, V>, keys: seq<string>, values: seq<V>)
    ensures WithDefaults(WithDefaults(m, keys, values), keys, values) == WithDefaults(m, keys, values)
  {
    var once := WithDefaults(m, keys, values);
    WithDefaultsKeys(m, keys, values);
    WithDefaultsNoOp(once, keys, values);
  }

  /** When every key zip reaches is already present, nothing changes. */
  lemma {:induction false} WithDefaultsNoOp<V>(m: map<string, V>, keys: seq<string>, values: seq<V>)
    requires Zipped(keys, |values|) <= m.Keys
    ensures WithDefaults(m, keys, values) == m
    decreases |keys|
  {
    if |keys| > 0 && |values| > 0 {
      var n := if |values| <= |keys| then |values| else |keys|;
      assert keys[0] in keys[..n];
      assert keys[1..][..n - 1] == keys[..n][1..];
      assert Zipped(keys[1..], |values| - 1) <= Zipped(keys, |values|);
      WithDefaultsNoOp(m, keys[1..], values[1..]);
    }
  }

  /** The caller's comp_params dictionary, which the run updates in place. */
  class CompParams<V> {
    var entries: map<string, V>

    constructor (entries: map<string, V>)
      ensures this.entries == entries
    {
      this.entries := entries;
    }

    /** Store each (key, value) pair zip yields whose key is not yet present. */
    method SetDefaults(keys: seq<string>, values: seq<V>)
      modifies this
      ensures entries == WithDefaults(old(entries), keys, values)
    {
      var n := if |keys| <= |values| then |keys| else |values|;
      for i := 0 to n
        invariant WithDefaults(entries, keys[i..], values[i..]) == WithDefaults(old(entries), keys, values)
      {
        assert keys[i..][1..] == keys[i + 1..] && values[i..][1..] == values[i + 1..];
        if keys[i] !in entries {
          entries := entries[keys[i] := values[i]];
        }
      }
    }
  }

  /**
   * The comp_params step of spamm: an absent dictionary becomes a new empty
   * one; "wl", "flux", "err" and "components" are then set where missing.
   * A dictionary the caller passed is updated in place and returned.
   */
  method FillCompParams<V>(compParams: Option<CompParams<V>>, wl: V, flux: V, fluxError: V, components: V)
    returns (d: CompParams<V>)
    modifies if compParams.Some? then {compParams.value} else {}
    ensures compParams.Some? ==> d == compParams.value
    ensures compParams.None? ==> fresh(d)
    ensures d.entries == WithDefaults(if compParams.Some? then old(compParams.value.entries) else map[],
                                      DefaultKeys, [wl, flux, fluxError, components])
  {
    if compParams.None? {
      d := new CompParams(map[]);
    } else {
      d := compParams.value;
    }
    d.SetDefaults(DefaultKeys, [wl, flux, fluxError, components]);
  }

  /**
   * What the caller finds in comp_params afterwards: its own entries kept
   * as they were, and each of the four default keys present, holding the
   * run's value where the caller had none.
   */
  lemma CompParamsDefaults<V>(m: map<string, V>, wl: V, flux: V, fluxError: V, components: V)
    ensures var r := WithDefaults(m, DefaultKeys, [wl, flux, fluxError, components]);
      && r.Keys == m.Keys + {"wl", "flux", "err", "components"}
      && (forall k :: k in m ==> r[k] == m[k])
      && ("wl" !in m ==> r["wl"] == wl)
      && ("flux" !in m ==> r["flux"] == flux)
      && ("err" !in m ==> r["err"] == fluxError)
      && ("components" !in m ==> r["components"] == components)
  {
    var values := [wl, flux, fluxError, components];
    WithDefaultsKeys(m, DefaultKeys, values);
    assert DefaultKeys[..4] == DefaultKeys;
    assert Zipped(DefaultKeys, 4) == {"wl", "flux", "err", "components"};
    forall k | k in m ensures WithDefaults(m, DefaultKeys, values)[k] == m[k] {
      WithDefaultsPreserves(m, DefaultKeys, values, k);
    }
    if "wl" !in m { DefaultKeyFilled(m, values, 0); }
    if "flux" !in m { DefaultKeyFilled(m, values, 1); }
    if "err" !in m { DefaultKeyFilled(m, values, 2); }
    if "components" !in m { DefaultKeyFilled(m, values, 3); }
  }

  /** The four default keys are distinct, so each missing one gets its own value. */
  lemma DefaultKeyFilled<V>(m: map<string, V>, values: seq<V>, i: nat)
    requires |values| == 4 && i < 4 && DefaultKeys[i] !in m
    ensures DefaultKeys[i] in WithDefaults(m, DefaultKeys, values)
    ensures WithDefaults(m, DefaultKeys, values)[DefaultKeys[i]] == values[i]
  {
    assert forall j :: 0 <= j < i ==> DefaultKeys[j] != DefaultKeys[i];
    WithDefaultsFills(m, DefaultKeys, values, i);
  }

  // ---------------------------------------------------------------------------
  // Output names

  /** The pickle file name: a default built from the timestamp, or the given name's basename with its suffix completed. */
  function NormalizedPicklefile(picklefile: Option<string>, now: string): (r: string)
    ensures picklefile.Some? ==> StartsWith(r, Basename(picklefile.value))
  {
    match picklefile
    case None => "model_" + now + ".pickle.gz"
    case Some(p) =>
      var b := Basename(p);
      StartsWithAppended(b, ".gz");
      StartsWithAppended(b, ".pickle.gz");
      assert b[..|b|] == b;
      if EndsWith(b, ".gz") then b
      else if EndsWith(b, ".pickle") || EndsWith(b, ".p") then b + ".gz"
      else b + ".pickle.gz"
  }

  /**
   * The names spamm saves under: the pickle file name normalised by the
   * rules above, and the output directory, which defaults to the timestamp.
   * Both are reassigned through branches as the run script does.
   */
  method OutputNames(picklefile: Option<string>, outdir: Option<string>, now: string) returns (pickle: string, dir: string)
    ensures pickle == NormalizedPicklefile(picklefile, now)
    ensures dir == if outdir.Some? then outdir.value else now
    ensures picklefile.None? && outdir.None? ==> pickle == "model_" + dir + ".pickle.gz"
  {
    if picklefile.None? {
      pickle := "model_" + now + ".pickle.gz";
    } else {
      pickle := Basename(picklefile.value);
      if !EndsWith(pickle, ".gz") {
        if EndsWith(pickle, ".pickle") || EndsWith(pickle, ".p") {
          pickle := pickle + ".gz";
        } else {
          pickle := pickle + ".pickle.gz";
        }
      }
    }
    dir := now;
    if outdir.Some? {
      dir := outdir.value;
    }
  }

  lemma BasenameOfPlain(s: string)
    requires '/' !in s
    ensures Basename(s) == s
  {
  }

  /**
   * A given name keeps its basename as a prefix and gains "", ".gz" or
   * ".pickle.gz": nothing exactly when it already ends in ".gz", ".gz"
   * exactly when it ends in ".pickle" or ".p" instead.
   */
  lemma PicklefileSuffix(p: string, now: string)
    ensures var b, r := Basename(p), NormalizedPicklefile(Some(p), now);
      && StartsWith(r, b)
      && r[|b|..] in {"", ".gz", ".pickle.gz"}
      && (r[|b|..] == "" <==> EndsWith(b, ".gz"))
      && (r[|b|..] == ".gz" <==> !EndsWith(b, ".gz") && (EndsWith(b, ".pickle") || EndsWith(b, ".p")))
  {
    var b, r := Basename(p), NormalizedPicklefile(Some(p), now);
    var suffix := if EndsWith(b, ".gz") then ""
                  else if EndsWith(b, ".pickle") || EndsWith(b, ".p") then ".gz"
                  else ".pickle.gz";
    assert r == b + suffix;
    assert r[..|b|] == b && r[|b|..] == suffix;
    assert |".pickle.gz"| == 10 && |".gz"| == 3;
  }

  /** The normalised name always ends in ".gz" and never holds a '/'. */
  lemma PicklefileEndsWithGz(picklefile: Option<string>, now: string)
    requires picklefile.None? ==> '/' !in now
    ensures EndsWith(NormalizedPicklefile(picklefile, now), ".gz")
    ensures '/' !in NormalizedPicklefile(picklefile, now)
  {
    var r := NormalizedPicklefile(picklefile, now);
    match picklefile
    case None =>
      EndsWithAppended("model_" + now + ".pickle", ".gz");
      assert r == "model_" + now + ".pickle" + ".gz";
    case Some(p) =>
      var b := Basename(p);
      if !EndsWith(b, ".gz") {
        if EndsWith(b, ".pickle") || EndsWith(b, ".p") {
          EndsWithAppended(b, ".gz");
        } else {
          EndsWithAppended(b + ".pickle", ".gz");
          assert r == b + ".pickle" + ".gz";
        }
      }
  }

  /** Normalising a normalised name gives it back unchanged. */
  lemma PicklefileIdempotent(picklefile: Option<string>, now: string, later: string)
    requires picklefile.None? ==> '/' !in now
    ensures NormalizedPicklefile(Some(NormalizedPicklefile(picklefile, now)), later)
         == NormalizedPicklefile(picklefile, now)
  {
    var r := NormalizedPicklefile(picklefile, now);
    PicklefileEndsWithGz(picklefile, now);
    BasenameOfPlain(r);
  }
}
