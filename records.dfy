/**
 * The AGL/1.0 record factories of `maat/core/records.py`: observation,
 * hypothesis, test, evidence, slot decision and receipt. Each is a dict
 * literal; the two effects, the clock (`now_iso`) and `uuid4`, are taken
 * as the parameters `ts` and `u`.
 */
module Records {
  import opened Wrappers
  import opened Text
  import opened Decimal
  import opened Json
  import opened Ledger

  const SpecVersion: string := "AGL/1.0"

  /** `uuid4().hex`: 32 lower-case hexadecimal digits. */
  type UuidHex = u: string | |u| == 32 && forall i | 0 <= i < |u| :: IsLowerHex(u[i])
    witness "00000000000000000000000000000000"

  /** `gen_id(prefix)`: the prefix, an underscore, and the first 16 digits of a fresh uuid. */
  function GenId(prefix: string, u: UuidHex): (id: string)
    ensures |id| == |prefix| + 17
    ensures id[..|prefix|] == prefix && id[|prefix|] == '_'
    ensures forall i | |prefix| < i < |id| :: IsLowerHex(id[i])
  {
    prefix + "_" + u[..16]
  }

  /** Two ids with one prefix are equal exactly when their uuids agree on the first 16 digits. */
  lemma GenIdInjective(prefix: string, u: UuidHex, v: UuidHex)
    ensures GenId(prefix, u) == GenId(prefix, v) <==> u[..16] == v[..16]
  {
    if GenId(prefix, u) == GenId(prefix, v) {
      assert u[..16] == GenId(prefix, u)[|prefix| + 1..];
      assert v[..16] == GenId(prefix, v)[|prefix| + 1..];
    }
  }

  /** Python's `x or default` for an optional dict: a missing or empty dict gives way to the default. */
  function DictOr(x: Option<Obj>, default: Obj): Obj {
    if x.Some? && x.value.keys != [] then x.value else default
  }

  /** The same for an optional list. */
  function ListOr(x: Option<seq<Value>>, default: seq<Value>): seq<Value> {
    if x.Some? && x.value != [] then x.value else default
  }

  /** A list of strings as a JSON list. */
  function StrList(ss: seq<string>): (v: Value)
    ensures v.List? && |v.items| == |ss|
    ensures forall i | 0 <= i < |ss| :: v.items[i] == Str(ss[i])
  {
    List(seq(|ss|, i requires 0 <= i < |ss| => Str(ss[i])))
  }

  /** `_decimal_string(x)` as a JSON string. */
  function Dec(x: real): Value {
    Str(DecimalString(Finite(x)))
  }

  /** `d[k1][k2]...`: the value at a path of keys, if every step finds a dict holding the key. */
  function Lookup(v: Value, path: seq<string>): Option<Value> {
    if path == [] then Some(v)
    else if v.Dict? && path[0] in v.obj.vals then Lookup(v.obj.vals[path[0]], path[1..])
    else None
  }

  /** The value under one key. */
  lemma LookupPath1(v: Value, k: string)
    ensures Lookup(v, [k]) == if v.Dict? && k in v.obj.vals then Some(v.obj.vals[k]) else None
  {
    assert [k][1..] == [];
  }

  /** One step down a path of two keys. */
  lemma LookupPath2(v: Value, k1: string, k2: string)
    ensures Lookup(v, [k1, k2]) == if v.Dict? && k1 in v.obj.vals then Lookup(v.obj.vals[k1], [k2]) else None
  {
    assert [k1, k2][1..] == [k2];
  }

  /** One step down a path of three keys. */
  lemma LookupPath3(v: Value, k1: string, k2: string, k3: string)
    ensures Lookup(v, [k1, k2, k3]) == if v.Dict? && k1 in v.obj.vals then Lookup(v.obj.vals[k1], [k2, k3]) else None
  {
    assert [k1, k2, k3][1..] == [k2, k3];
  }

  /** A dict with the single entry `k: v`. */
  function Single(k: string, v: Value): Obj {
    Obj([k], map[k := v])
  }

  lemma SingleWF(k: string, v: Value)
    requires WF(v)
    ensures WFObj(Single(k, v))
  {
  }

  /** The fields every record shares: spec, schema and time stamp. */
  predicate Stamped(r: Obj, schema: string, ts: string) {
    "spec" in r.vals && "schema" in r.vals && "ts" in r.vals &&
    r.vals["spec"] == Str(SpecVersion) && r.vals["schema"] == Str(schema) && r.vals["ts"] == Str(ts)
  }

  // ---------------------------------------------------------------------
  // AGL_Observation

  const ObservationKeys: seq<string> := ["spec", "schema", "ts", "id", "src", "fields", "meta"]

  lemma ObservationKeysDistinct()
    ensures Distinct(ObservationKeys)
  {
  }

  /** `AGL_Observation(src, fields, meta)` */
  function Observation(ts: string, u: UuidHex, src: string, fields: Obj, meta: Option<Obj>): Obj {
    Obj(ObservationKeys,
      map["spec" := Str(SpecVersion), "schema" := Str("AGL/Observation"), "ts" := Str(ts),
          "id" := Str(GenId("obs", u)), "src" := Str(src), "fields" := Dict(fields),
          "meta" := Dict(DictOr(meta, EmptyObj))])
  }

  lemma ObservationWF(ts: string, u: UuidHex, src: string, fields: Obj, meta: Option<Obj>)
    requires WFObj(fields) && (meta.Some? ==> WFObj(meta.value))
    ensures WFObj(Observation(ts, u, src, fields, meta))
  {
    var r := Observation(ts, u, src, fields, meta);
    ObservationKeysDistinct();
    assert forall k | k in r.vals :: WF(r.vals[k]);
    assert forall k | k in r.vals :: k in r.keys;
    assert forall k | k in r.keys :: k in r.vals;
  }

  /** An observation carries `obs_` plus 16 uuid digits as its id, its source and fields verbatim, and its meta or `{}`. */
  lemma ObservationFields(ts: string, u: UuidHex, src: string, fields: Obj, meta: Option<Obj>)
    ensures var r := Observation(ts, u, src, fields, meta);
      && Stamped(r, "AGL/Observation", ts)
      && r.vals["id"] == Str(GenId("obs", u)) && r.vals["src"] == Str(src) && r.vals["fields"] == Dict(fields)
      && r.vals["meta"] == Dict(if meta.Some? && meta.value.keys != [] then meta.value else EmptyObj)
  {
  }

  // ---------------------------------------------------------------------
  // AGL_Hypothesis

  /** The default prior, Beta(1, 1). */
  const DefaultPrior: Obj :=
    Obj(["dist", "a", "b"], map["dist" := Str("Beta"), "a" := Str("1"), "b" := Str("1")])

  const HypothesisKeys: seq<string> := ["spec", "schema", "ts", "id", "hemi", "claim", "from", "prior", "rules", "windows"]

  lemma HypothesisKeysDistinct()
    ensures Distinct(HypothesisKeys)
  {
  }

  /** `AGL_Hypothesis(claim, hemi, from_ids, prior)` */
  function Hypothesis(ts: string, u: UuidHex, claim: string, hemi: string, fromIds: seq<string>, prior: Option<Obj>): Obj {
    HypothesisOf(ts, GenId("hyp", u), claim, hemi, fromIds, DictOr(prior, DefaultPrior))
  }

  /** The hypothesis dict once its id is drawn and its prior chosen. */
  function HypothesisOf(ts: string, id: string, claim: string, hemi: string, fromIds: seq<string>, prior: Obj): Obj {
    Obj(HypothesisKeys,
      map["spec" := Str(SpecVersion), "schema" := Str("AGL/Hypothesis"), "ts" := Str(ts),
          "id" := Str(id), "hemi" := Str(hemi), "claim" := Str(claim),
          "from" := StrList(fromIds), "prior" := Dict(prior),
          "rules" := List([]), "windows" := List([])])
  }

  lemma DefaultPriorWF()
    ensures WFObj(DefaultPrior)
  {
    assert Distinct(DefaultPrior.keys);
  }

  lemma HypothesisOfWF(ts: string, id: string, claim: string, hemi: string, fromIds: seq<string>, prior: Obj)
    requires WFObj(prior)
    ensures WFObj(HypothesisOf(ts, id, claim, hemi, fromIds, prior))
  {
    var r := HypothesisOf(ts, id, claim, hemi, fromIds, prior);
    HypothesisKeysDistinct();
    assert WF(StrList(fromIds));
    assert forall k | k in r.vals :: WF(r.vals[k]);
    assert forall k | k in r.vals :: k in r.keys;
    assert forall k | k in r.keys :: k in r.vals;
  }

  lemma HypothesisWF(ts: string, u: UuidHex, claim: string, hemi: string, fromIds: seq<string>, prior: Option<Obj>)
    requires prior.Some? ==> WFObj(prior.value)
    ensures WFObj(Hypothesis(ts, u, claim, hemi, fromIds, prior))
  {
    DefaultPriorWF();
    HypothesisOfWF(ts, GenId("hyp", u), claim, hemi, fromIds, DictOr(prior, DefaultPrior));
  }

  lemma HypothesisOfFields(ts: string, id: string, claim: string, hemi: string, fromIds: seq<string>, prior: Obj)
    ensures var r := HypothesisOf(ts, id, claim, hemi, fromIds, prior);
      && Stamped(r, "AGL/Hypothesis", ts)
      && r.vals["id"] == Str(id) && r.vals["hemi"] == Str(hemi) && r.vals["claim"] == Str(claim)
      && r.vals["from"] == StrList(fromIds) && r.vals["prior"] == Dict(prior)
      && r.vals["rules"] == List([]) && r.vals["windows"] == List([])
  {
  }

  /** A hypothesis carries `hyp_` plus 16 uuid digits, its claim, hemisphere and sources, no rules or windows, and Beta(1, 1) unless given a non-empty prior. */
  lemma HypothesisFields(ts: string, u: UuidHex, claim: string, hemi: string, fromIds: seq<string>, prior: Option<Obj>)
    ensures var r := Hypothesis(ts, u, claim, hemi, fromIds, prior);
      && Stamped(r, "AGL/Hypothesis", ts)
      && r.vals["id"] == Str(GenId("hyp", u)) && r.vals["hemi"] == Str(hemi) && r.vals["claim"] == Str(claim)
      && r.vals["from"] == StrList(fromIds)
      && r.vals["prior"] == Dict(if prior.Some? && prior.value.keys != [] then prior.value else DefaultPrior)
      && r.vals["rules"] == List([]) && r.vals["windows"] == List([])
  {
    HypothesisOfFields(ts, GenId("hyp", u), claim, hemi, fromIds, DictOr(prior, DefaultPrior));
  }

  // ---------------------------------------------------------------------
  // AGL_Test

  const DefaultDesign: Obj :=
    Obj(["type", "holdout"], map["type" := Str("rolling"), "holdout" := Str("0.2")])

  function Metric(name: string): Value {
    Dict(Single("name", Str(name)))
  }

  const DefaultMetrics: seq<Value> := [Metric("posterior_mean"), Metric("coh_peak_mean"), Metric("mdl_delta_bits")]

  const Power: Obj := Obj(["alpha", "beta"], map["alpha" := Str("0.05"), "beta" := Str("0.2")])

  const TestKeys: seq<string> := ["spec", "schema", "ts", "id", "hyp", "design", "metrics", "power"]

  lemma TestKeysDistinct()
    ensures Distinct(TestKeys)
  {
  }

  /** `AGL_Test(hyp_id, design, metrics)` */
  function Test(ts: string, u: UuidHex, hyp: string, design: Option<Obj>, metrics: Option<seq<Value>>): Obj {
    TestOf(ts, GenId("tst", u), hyp, DictOr(design, DefaultDesign), ListOr(metrics, DefaultMetrics))
  }

  /** The test dict once its id is drawn and its design and metrics chosen. */
  function TestOf(ts: string, id: string, hyp: string, design: Obj, metrics: seq<Value>): Obj {
    Obj(TestKeys,
      map["spec" := Str(SpecVersion), "schema" := Str("AGL/Test"), "ts" := Str(ts),
          "id" := Str(id), "hyp" := Str(hyp), "design" := Dict(design),
          "metrics" := List(metrics), "power" := Dict(Power)])
  }

  lemma DefaultDesignWF()
    ensures WFObj(DefaultDesign)
  {
    assert Distinct(DefaultDesign.keys);
  }

  lemma PowerWF()
    ensures WFObj(Power)
  {
    assert Distinct(Power.keys);
  }

  lemma DefaultMetricsWF()
    ensures WF(List(DefaultMetrics))
  {
    SingleWF("name", Str("posterior_mean"));
    SingleWF("name", Str("coh_peak_mean"));
    SingleWF("name", Str("mdl_delta_bits"));
  }

  lemma TestOfWF(ts: string, id: string, hyp: string, design: Obj, metrics: seq<Value>)
    requires WFObj(design) && WF(List(metrics))
    ensures WFObj(TestOf(ts, id, hyp, design, metrics))
  {
    var r := TestOf(ts, id, hyp, design, metrics);
    PowerWF();
    TestKeysDistinct();
    assert forall k | k in r.vals :: WF(r.vals[k]);
    assert forall k | k in r.vals :: k in r.keys;
    assert forall k | k in r.keys :: k in r.vals;
  }

  lemma TestWF(ts: string, u: UuidHex, hyp: string, design: Option<Obj>, metrics: Option<seq<Value>>)
    requires design.Some? ==> WFObj(design.value)
    requires metrics.Some? ==> WF(List(metrics.value))
    ensures WFObj(Test(ts, u, hyp, design, metrics))
  {
    DefaultDesignWF();
    DefaultMetricsWF();
    TestOfWF(ts, GenId("tst", u), hyp, DictOr(design, DefaultDesign), ListOr(metrics, DefaultMetrics));
  }

  lemma TestOfFields(ts: string, id: string, hyp: string, design: Obj, metrics: seq<Value>)
    ensures var r := TestOf(ts, id, hyp, design, metrics);
      && Stamped(r, "AGL/Test", ts)
      && r.vals["id"] == Str(id) && r.vals["hyp"] == Str(hyp) && r.vals["design"] == Dict(design)
      && r.vals["metrics"] == List(metrics) && r.vals["power"] == Dict(Power)
  {
  }

  /** A test carries `tst_` plus 16 uuid digits and its hypothesis, the rolling design and three default metrics unless given others, and the fixed power. */
  lemma TestFields(ts: string, u: UuidHex, hyp: string, design: Option<Obj>, metrics: Option<seq<Value>>)
    ensures var r := Test(ts, u, hyp, design, metrics);
      && Stamped(r, "AGL/Test", ts)
      && r.vals["id"] == Str(GenId("tst", u)) && r.vals["hyp"] == Str(hyp)
      && r.vals["design"] == Dict(if design.Some? && design.value.keys != [] then design.value else DefaultDesign)
      && r.vals["metrics"] == List(if metrics.Some? && metrics.value != [] then metrics.value else DefaultMetrics)
      && r.vals["power"] == Dict(Power)
  {
    TestOfFields(ts, GenId("tst", u), hyp, DictOr(design, DefaultDesign), ListOr(metrics, DefaultMetrics));
  }

  // ---------------------------------------------------------------------
  // AGL_Evidence
  //
  // The factory renders its numbers with `_decimal_string` and then builds
  // the dict; the dict is stated once over the rendered texts
  // (`EvidenceOf`), so its shape is proved without the rendering.

  const EvidenceKeys: seq<string> := ["spec", "schema", "ts", "tst", "hyp", "bayes", "coherence", "mdl", "residuals"]

  lemma EvidenceKeysDistinct()
    ensures Distinct(EvidenceKeys)
  {
  }

  /** `AGL_Evidence(tst_id, hyp_id, post_mean, coh, mdl_bits, successes, failures)`; it has no id of its own. */
  function Evidence(ts: string, tst: string, hyp: string, postMean: real, coh: real, mdlBits: real,
                    successes: int, failures: int): Obj {
    EvidenceOf(ts, tst, hyp,
      DecimalString(Finite((1 + successes) as real)), DecimalString(Finite((1 + failures) as real)),
      DecimalString(Finite(postMean)), DecimalString(Finite(coh)), DecimalString(Finite(mdlBits)),
      DecimalString(Finite(0.0)))
  }

  /** The evidence dict with its numbers already rendered: `a`, `b` and `mean` of the posterior, coherence, MDL bits and zero. */
  function EvidenceOf(ts: string, tst: string, hyp: string, a: string, b: string, mean: string,
                      coh: string, mdl: string, zero: string): Obj {
    Obj(EvidenceKeys,
      map["spec" := Str(SpecVersion), "schema" := Str("AGL/Evidence"), "ts" := Str(ts),
          "tst" := Str(tst), "hyp" := Str(hyp),
          "bayes" := Dict(Single("posterior", Dict(Posterior(a, b, mean)))),
          "coherence" := Dict(CoherenceScores(coh)),
          "mdl" := Dict(Single("bits_delta", Str(mdl))),
          "residuals" := Dict(Residuals(zero))])
  }

  /** The Beta posterior `{"dist": "Beta", "a": .., "b": .., "mean": ..}`. */
  function Posterior(a: string, b: string, mean: string): Obj {
    Obj(["dist", "a", "b", "mean"], map["dist" := Str("Beta"), "a" := Str(a), "b" := Str(b), "mean" := Str(mean)])
  }

  function CoherenceScores(coh: string): Obj {
    Obj(["peak_mean", "multi_scale"], map["peak_mean" := Str(coh), "multi_scale" := Dict(Single("T", Str(coh)))])
  }

  function Residuals(zero: string): Obj {
    Obj(["norm", "outlier_rate"], map["norm" := Str(zero), "outlier_rate" := Str(zero)])
  }

  lemma PosteriorWF(a: string, b: string, mean: string)
    ensures WFObj(Posterior(a, b, mean))
  {
    var p := Posterior(a, b, mean);
    assert Distinct(p.keys);
    assert forall k | k in p.vals :: WF(p.vals[k]);
  }

  lemma CoherenceScoresWF(coh: string)
    ensures WFObj(CoherenceScores(coh))
  {
    var c := CoherenceScores(coh);
    SingleWF("T", Str(coh));
    assert Distinct(c.keys);
    assert forall k | k in c.vals :: WF(c.vals[k]);
  }

  lemma ResidualsWF(zero: string)
    ensures WFObj(Residuals(zero))
  {
    var r := Residuals(zero);
    assert Distinct(r.keys);
    assert forall k | k in r.vals :: WF(r.vals[k]);
  }

  lemma EvidenceOfWF(ts: string, tst: string, hyp: string, a: string, b: string, mean: string,
                     coh: string, mdl: string, zero: string)
    ensures WFObj(EvidenceOf(ts, tst, hyp, a, b, mean, coh, mdl, zero))
  {
    var r := EvidenceOf(ts, tst, hyp, a, b, mean, coh, mdl, zero);
    PosteriorWF(a, b, mean);
    SingleWF("posterior", Dict(Posterior(a, b, mean)));
    CoherenceScoresWF(coh);
    SingleWF("bits_delta", Str(mdl));
    ResidualsWF(zero);
    EvidenceKeysDistinct();
    assert forall k | k in r.vals :: WF(r.vals[k]);
    assert forall k | k in r.vals :: k in r.keys;
    assert forall k | k in r.keys :: k in r.vals;
  }

  lemma EvidenceWF(ts: string, tst: string, hyp: string, postMean: real, coh: real, mdlBits: real,
                   successes: int, failures: int)
    ensures WFObj(Evidence(ts, tst, hyp, postMean, coh, mdlBits, successes, failures))
  {
    EvidenceOfWF(ts, tst, hyp,
      DecimalString(Finite((1 + successes) as real)), DecimalString(Finite((1 + failures) as real)),
      DecimalString(Finite(postMean)), DecimalString(Finite(coh)), DecimalString(Finite(mdlBits)),
      DecimalString(Finite(0.0)));
  }

  lemma EvidenceOfFields(ts: string, tst: string, hyp: string, a: string, b: string, mean: string,
                         coh: string, mdl: string, zero: string)
    ensures var r := EvidenceOf(ts, tst, hyp, a, b, mean, coh, mdl, zero);
      && Stamped(r, "AGL/Evidence", ts) && "id" !in r.vals
      && r.vals["tst"] == Str(tst) && r.vals["hyp"] == Str(hyp)
  {
  }

  lemma EvidenceOfPosterior(ts: string, tst: string, hyp: string, a: string, b: string, mean: string,
                            coh: string, mdl: string, zero: string)
    ensures var e := Dict(EvidenceOf(ts, tst, hyp, a, b, mean, coh, mdl, zero));
      && Lookup(e, ["bayes", "posterior", "dist"]) == Some(Str("Beta"))
      && Lookup(e, ["bayes", "posterior", "a"]) == Some(Str(a))
      && Lookup(e, ["bayes", "posterior", "b"]) == Some(Str(b))
      && Lookup(e, ["bayes", "posterior", "mean"]) == Some(Str(mean))
  {
    var e := Dict(EvidenceOf(ts, tst, hyp, a, b, mean, coh, mdl, zero));
    var bayes := Dict(Single("posterior", Dict(Posterior(a, b, mean))));
    var p := Dict(Posterior(a, b, mean));
    assert e.obj.vals["bayes"] == bayes;
    assert bayes.obj.vals["posterior"] == p;
    LookupPath3(e, "bayes", "posterior", "dist");
    LookupPath3(e, "bayes", "posterior", "a");
    LookupPath3(e, "bayes", "posterior", "b");
    LookupPath3(e, "bayes", "posterior", "mean");
    LookupPath2(bayes, "posterior", "dist");
    LookupPath2(bayes, "posterior", "a");
    LookupPath2(bayes, "posterior", "b");
    LookupPath2(bayes, "posterior", "mean");
    LookupPath1(p, "dist");
    LookupPath1(p, "a");
    LookupPath1(p, "b");
    LookupPath1(p, "mean");
  }

  lemma EvidenceOfScores(ts: string, tst: string, hyp: string, a: string, b: string, mean: string,
                         coh: string, mdl: string, zero: string)
    ensures var e := Dict(EvidenceOf(ts, tst, hyp, a, b, mean, coh, mdl, zero));
      && Lookup(e, ["coherence", "multi_scale", "T"]) == Lookup(e, ["coherence", "peak_mean"]) == Some(Str(coh))
      && Lookup(e, ["mdl", "bits_delta"]) == Some(Str(mdl))
      && Lookup(e, ["residuals", "norm"]) == Lookup(e, ["residuals", "outlier_rate"]) == Some(Str(zero))
  {
    var e := Dict(EvidenceOf(ts, tst, hyp, a, b, mean, coh, mdl, zero));
    var c, m, r := Dict(CoherenceScores(coh)), Dict(Single("bits_delta", Str(mdl))), Dict(Residuals(zero));
    var t := Dict(Single("T", Str(coh)));
    assert e.obj.vals["coherence"] == c && e.obj.vals["mdl"] == m && e.obj.vals["residuals"] == r;
    assert c.obj.vals["multi_scale"] == t;
    LookupPath3(e, "coherence", "multi_scale", "T");
    LookupPath2(c, "multi_scale", "T");
    LookupPath1(t, "T");
    LookupPath2(e, "coherence", "peak_mean");
    LookupPath1(c, "peak_mean");
    LookupPath2(e, "mdl", "bits_delta");
    LookupPath1(m, "bits_delta");
    LookupPath2(e, "residuals", "norm");
    LookupPath2(e, "residuals", "outlier_rate");
    LookupPath1(r, "norm");
    LookupPath1(r, "outlier_rate");
  }

  /** Evidence names its test and hypothesis and carries no id of its own. */
  lemma EvidenceFields(ts: string, tst: string, hyp: string, postMean: real, coh: real, mdlBits: real,
                       successes: int, failures: int)
    ensures var r := Evidence(ts, tst, hyp, postMean, coh, mdlBits, successes, failures);
      && Stamped(r, "AGL/Evidence", ts) && "id" !in r.vals
      && r.vals["tst"] == Str(tst) && r.vals["hyp"] == Str(hyp)
  {
    EvidenceOfFields(ts, tst, hyp,
      DecimalString(Finite((1 + successes) as real)), DecimalString(Finite((1 + failures) as real)),
      DecimalString(Finite(postMean)), DecimalString(Finite(coh)), DecimalString(Finite(mdlBits)),
      DecimalString(Finite(0.0)));
  }

  /**
   * The evidence's Beta posterior shows the counts plus one as plain integers
   * and the posterior mean, the multi-scale coherence repeats the
   * peak-to-mean score, and both residual figures read "0".
   */
  lemma EvidenceScores(ts: string, tst: string, hyp: string, postMean: real, coh: real, mdlBits: real,
                       successes: int, failures: int)
    ensures var e := Dict(Evidence(ts, tst, hyp, postMean, coh, mdlBits, successes, failures));
      && Lookup(e, ["bayes", "posterior", "dist"]) == Some(Str("Beta"))
      && Lookup(e, ["bayes", "posterior", "a"]) == Some(Str(IntToString(1 + successes)))
      && Lookup(e, ["bayes", "posterior", "b"]) == Some(Str(IntToString(1 + failures)))
      && Lookup(e, ["bayes", "posterior", "mean"]) == Some(Dec(postMean))
      && Lookup(e, ["coherence", "multi_scale", "T"]) == Lookup(e, ["coherence", "peak_mean"]) == Some(Dec(coh))
      && Lookup(e, ["mdl", "bits_delta"]) == Some(Dec(mdlBits))
      && Lookup(e, ["residuals", "norm"]) == Lookup(e, ["residuals", "outlier_rate"]) == Some(Str("0"))
  {
    var a, b := DecimalString(Finite((1 + successes) as real)), DecimalString(Finite((1 + failures) as real));
    var zero := DecimalString(Finite(0.0));
    EvidenceOfPosterior(ts, tst, hyp, a, b, DecimalString(Finite(postMean)), DecimalString(Finite(coh)),
      DecimalString(Finite(mdlBits)), zero);
    EvidenceOfScores(ts, tst, hyp, a, b, DecimalString(Finite(postMean)), DecimalString(Finite(coh)),
      DecimalString(Finite(mdlBits)), zero);
    DecimalStringOfInteger(1 + successes);
    DecimalStringOfInteger(1 + failures);
    DecimalStringOfInteger(0);
    assert zero == IntToString(0) == "0";
  }

  // ---------------------------------------------------------------------
  // AGL_SlotDecision

  /** A dict of floats, `Dict[str, float]`. */
  datatype FloatDict = FloatDict(keys: seq<string>, vals: map<string, real>)

  predicate FloatDictWF(d: FloatDict) {
    Distinct(d.keys) && (forall k | k in d.vals :: k in d.keys) && (forall k | k in d.keys :: k in d.vals)
  }

  /** `{k: _decimal_string(v) for k, v in d.items()}`: the same keys in the same order, each value rendered. */
  function Rendered(d: FloatDict): (o: Obj)
    ensures o.keys == d.keys && o.vals.Keys == d.vals.Keys
    ensures forall k | k in d.vals :: o.vals[k] == Dec(d.vals[k])
  {
    Obj(d.keys, map k | k in d.vals :: Dec(d.vals[k]))
  }

  lemma RenderedWF(d: FloatDict)
    requires FloatDictWF(d)
    ensures WFObj(Rendered(d))
  {
    var o := Rendered(d);
    assert forall k | k in o.vals :: WF(o.vals[k]);
  }

  const SlotDecisionKeys: seq<string> := ["spec", "schema", "ts", "hyp", "tst", "gate", "decision", "attention", "reason"]

  lemma SlotDecisionKeysDistinct()
    ensures Distinct(SlotDecisionKeys)
  {
  }

  /** `AGL_SlotDecision(hyp_id, tst_id, decision, gates, attention, reason)`, the gates dict given by its three entries. */
  function SlotDecision(ts: string, hyp: string, tst: string, decision: string,
                        bayes: real, coh: real, mdl: real, attention: FloatDict, reason: seq<string>): Obj {
    SlotDecisionOf(ts, hyp, tst, decision,
      DecimalString(Finite(bayes)), DecimalString(Finite(coh)), DecimalString(Finite(mdl)),
      Rendered(attention), reason)
  }

  /** The decision dict with its gate thresholds and attention already rendered. */
  function SlotDecisionOf(ts: string, hyp: string, tst: string, decision: string,
                          bayes: string, coh: string, mdl: string, attention: Obj, reason: seq<string>): Obj {
    Obj(SlotDecisionKeys,
      map["spec" := Str(SpecVersion), "schema" := Str("AGL/SlotDecision"), "ts" := Str(ts),
          "hyp" := Str(hyp), "tst" := Str(tst), "gate" := Dict(GateThresholds(bayes, coh, mdl)),
          "decision" := Str(decision), "attention" := Dict(attention), "reason" := StrList(reason)])
  }

  function GateThresholds(bayes: string, coh: string, mdl: string): Obj {
    Obj(["bayes_threshold", "coherence_threshold", "mdl_threshold"],
      map["bayes_threshold" := Str(bayes), "coherence_threshold" := Str(coh), "mdl_threshold" := Str(mdl)])
  }

  lemma GateThresholdsWF(bayes: string, coh: string, mdl: string)
    ensures WFObj(GateThresholds(bayes, coh, mdl))
  {
    var g := GateThresholds(bayes, coh, mdl);
    assert Distinct(g.keys);
    assert forall k | k in g.vals :: WF(g.vals[k]);
  }

  lemma SlotDecisionOfWF(ts: string, hyp: string, tst: string, decision: string,
                         bayes: string, coh: string, mdl: string, attention: Obj, reason: seq<string>)
    requires WFObj(attention)
    ensures WFObj(SlotDecisionOf(ts, hyp, tst, decision, bayes, coh, mdl, attention, reason))
  {
    var r := SlotDecisionOf(ts, hyp, tst, decision, bayes, coh, mdl, attention, reason);
    GateThresholdsWF(bayes, coh, mdl);
    assert WF(StrList(reason));
    SlotDecisionKeysDistinct();
    assert forall k | k in r.vals :: WF(r.vals[k]);
    assert forall k | k in r.vals :: k in r.keys;
    assert forall k | k in r.keys :: k in r.vals;
  }

  lemma SlotDecisionWF(ts: string, hyp: string, tst: string, decision: string,
                       bayes: real, coh: real, mdl: real, attention: FloatDict, reason: seq<string>)
    requires FloatDictWF(attention)
    ensures WFObj(SlotDecision(ts, hyp, tst, decision, bayes, coh, mdl, attention, reason))
  {
    RenderedWF(attention);
    SlotDecisionOfWF(ts, hyp, tst, decision,
      DecimalString(Finite(bayes)), DecimalString(Finite(coh)), DecimalString(Finite(mdl)),
      Rendered(attention), reason);
  }

  lemma SlotDecisionOfFields(ts: string, hyp: string, tst: string, decision: string,
                             bayes: string, coh: string, mdl: string, attention: Obj, reason: seq<string>)
    ensures var r := SlotDecisionOf(ts, hyp, tst, decision, bayes, coh, mdl, attention, reason);
      && Stamped(r, "AGL/SlotDecision", ts)
      && r.vals["hyp"] == Str(hyp) && r.vals["tst"] == Str(tst) && r.vals["decision"] == Str(decision)
      && r.vals["reason"] == StrList(reason)
      && r.vals["attention"] == Dict(attention)
      && r.vals["gate"] == Dict(GateThresholds(bayes, coh, mdl))
  {
  }

  /** A decision carries its hypothesis, test, verdict and reasons verbatim. */
  lemma SlotDecisionFields(ts: string, hyp: string, tst: string, decision: string,
                           bayes: real, coh: real, mdl: real, attention: FloatDict, reason: seq<string>)
    ensures var r := SlotDecision(ts, hyp, tst, decision, bayes, coh, mdl, attention, reason);
      && Stamped(r, "AGL/SlotDecision", ts)
      && r.vals["hyp"] == Str(hyp) && r.vals["tst"] == Str(tst) && r.vals["decision"] == Str(decision)
      && r.vals["reason"] == StrList(reason)
  {
    SlotDecisionOfFields(ts, hyp, tst, decision,
      DecimalString(Finite(bayes)), DecimalString(Finite(coh)), DecimalString(Finite(mdl)),
      Rendered(attention), reason);
  }

  lemma SlotDecisionOfGate(ts: string, hyp: string, tst: string, decision: string,
                           bayes: string, coh: string, mdl: string, attention: Obj, reason: seq<string>)
    ensures var d := Dict(SlotDecisionOf(ts, hyp, tst, decision, bayes, coh, mdl, attention, reason));
      && Lookup(d, ["gate", "bayes_threshold"]) == Some(Str(bayes))
      && Lookup(d, ["gate", "coherence_threshold"]) == Some(Str(coh))
      && Lookup(d, ["gate", "mdl_threshold"]) == Some(Str(mdl))
  {
    var d := Dict(SlotDecisionOf(ts, hyp, tst, decision, bayes, coh, mdl, attention, reason));
    var g := Dict(GateThresholds(bayes, coh, mdl));
    assert d.obj.vals["gate"] == g;
    LookupPath2(d, "gate", "bayes_threshold");
    LookupPath2(d, "gate", "coherence_threshold");
    LookupPath2(d, "gate", "mdl_threshold");
    LookupPath1(g, "bayes_threshold");
    LookupPath1(g, "coherence_threshold");
    LookupPath1(g, "mdl_threshold");
  }

  /** The three gate thresholds, and each attention figure under its own key in its own order, are rendered with `_decimal_string`. */
  lemma SlotDecisionScores(ts: string, hyp: string, tst: string, decision: string,
                           bayes: real, coh: real, mdl: real, attention: FloatDict, reason: seq<string>)
    ensures var d := Dict(SlotDecision(ts, hyp, tst, decision, bayes, coh, mdl, attention, reason));
      && Lookup(d, ["gate", "bayes_threshold"]) == Some(Dec(bayes))
      && Lookup(d, ["gate", "coherence_threshold"]) == Some(Dec(coh))
      && Lookup(d, ["gate", "mdl_threshold"]) == Some(Dec(mdl))
      && d.obj.vals["attention"].Dict? && d.obj.vals["attention"].obj.keys == attention.keys
      && forall k | k in attention.vals :: Lookup(d, ["attention", k]) == Some(Dec(attention.vals[k]))
  {
    var b, c, m := DecimalString(Finite(bayes)), DecimalString(Finite(coh)), DecimalString(Finite(mdl));
    var att := Rendered(attention);
    SlotDecisionOfFields(ts, hyp, tst, decision, b, c, m, att, reason);
    SlotDecisionOfGate(ts, hyp, tst, decision, b, c, m, att, reason);
    var d := Dict(SlotDecision(ts, hyp, tst, decision, bayes, coh, mdl, attention, reason));
    assert d.obj.vals["attention"] == Dict(att);
    forall k | k in attention.vals ensures Lookup(d, ["attention", k]) == Some(Dec(attention.vals[k])) {
      LookupPath2(d, "attention", k);
      LookupPath1(Dict(att), k);
    }
  }

  // ---------------------------------------------------------------------
  // AGL_Receipt

  const ReceiptKeys: seq<string> := ["spec", "schema", "ts", "slot_id", "status", "hyp", "evid", "decision_ukh", "note"]

  lemma ReceiptKeysDistinct()
    ensures Distinct(ReceiptKeys)
  {
  }

  /** `AGL_Receipt(slot_id, status, hyp_id, evid_ukh, decision_ukh, note)` */
  function Receipt(ts: string, slotId: string, status: string, hyp: string, evid: string, decisionUkh: string,
                   note: string): Obj {
    Obj(ReceiptKeys,
      map["spec" := Str(SpecVersion), "schema" := Str("AGL/Receipt"), "ts" := Str(ts),
          "slot_id" := Str(slotId), "status" := Str(status), "hyp" := Str(hyp), "evid" := Str(evid),
          "decision_ukh" := Str(decisionUkh), "note" := Str(note)])
  }

  lemma ReceiptWF(ts: string, slotId: string, status: string, hyp: string, evid: string, decisionUkh: string,
                  note: string)
    ensures WFObj(Receipt(ts, slotId, status, hyp, evid, decisionUkh, note))
  {
    var r := Receipt(ts, slotId, status, hyp, evid, decisionUkh, note);
    ReceiptKeysDistinct();
    assert forall k | k in r.vals :: WF(r.vals[k]);
    assert forall k | k in r.vals :: k in r.keys;
    assert forall k | k in r.keys :: k in r.vals;
  }

  /** A receipt copies every argument verbatim. */
  lemma ReceiptFields(ts: string, slotId: string, status: string, hyp: string, evid: string, decisionUkh: string,
                      note: string)
    ensures var r := Receipt(ts, slotId, status, hyp, evid, decisionUkh, note);
      && Stamped(r, "AGL/Receipt", ts)
      && r.vals["slot_id"] == Str(slotId) && r.vals["status"] == Str(status) && r.vals["hyp"] == Str(hyp)
      && r.vals["evid"] == Str(evid) && r.vals["decision_ukh"] == Str(decisionUkh) && r.vals["note"] == Str(note)
  {
  }
}
