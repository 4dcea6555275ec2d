/**
 * The deterministic cross-domain translator: a table from (source, target)
 * domain pairs to a rewriting rule, a rewritten claim and a fidelity score,
 * recorded under `meta.translation` of a shallow copy of the hypothesis.
 */
module Translation {
  import opened Wrappers
  import opened Decimal
  import opened Json
  import opened Ledger

  const Domains: seq<string> := ["numeric", "boolean", "linguistic", "temporal", "causal", "spatial", "probabilistic", "logical"]

  /** What one (source, target) pair does: the rule name, the new claim (none: left as it was) and the fidelity. */
  datatype Entry = Entry(rule: Option<string>, claim: Option<string>, fidelity: real)

  /** The if/elif table of `translate`. */
  function EntryFor(src: string, dst: string, claim: string): Entry {
    if src == dst then Entry(None, None, 1.0)
    else if src == "numeric" && dst == "boolean" then
      Entry(Some("threshold>0"), Some("(numeric-claim > 0) implies (" + claim + ")"), 0.8)
    else if src == "boolean" && dst == "probabilistic" then
      Entry(Some("boolean→beta-mean"), Some("Pr(" + claim + ") >= 0.5"), 0.7)
    else if src == "linguistic" && dst == "logical" then
      Entry(Some("predicate-wrap"), Some("ASSERT(" + claim + ")"), 0.75)
    else if src == "numeric" && dst == "probabilistic" then
      Entry(Some("normalize"), Some("Pr(" + claim + ") in [0,1]"), 0.65)
    else Entry(Some("identity-fallback"), None, 0.6)
  }

  /** `meta["translation"]` once filled in: `from`, `to`, then `rule` when there is one, then `fidelity`. */
  function TranslationDict(src: string, dst: string, e: Entry): Obj {
    var base := map["from" := Str(src), "to" := Str(dst), "fidelity" := Num(Finite(e.fidelity))];
    if e.rule.Some? then Obj(["from", "to", "rule", "fidelity"], base["rule" := Str(e.rule.value)])
    else Obj(["from", "to", "fidelity"], base)
  }

  /** `str(h.get("claim", ""))`, with `str` of a value that is not a string given as `show`. */
  function ClaimText(h: Obj, show: Value -> string): string {
    match Get(h, "claim")
    case None => ""
    case Some(v) => if v.Str? then v.s else show(v)
  }

  /** The dict returned, and the input dict as the shared `meta` leaves it. */
  datatype Translated = Translated(copy: Obj, input: Obj)

  /**
   * `translate(hypothesis, source_domain, target_domain)`. `dict(hypothesis)`
   * copies the top level only, so an existing `meta` dict is the input's own,
   * and writing `translation` into it changes the input too; a missing `meta`
   * is added to the copy alone, and a `meta` that is not a dict cannot take
   * the item assignment.
   */
  function Translate(h: Obj, show: Value -> string, src: string, dst: string): (r: Result<Translated>)
    ensures r.Failure? <==> "meta" in h.vals && !h.vals["meta"].Dict?
  {
    var claim := ClaimText(h, show);
    var shared := "meta" in h.vals;
    var h1 := if shared then h else Set(h, "meta", Dict(EmptyObj));
    var meta := if shared then h.vals["meta"] else Dict(EmptyObj);
    if !meta.Dict? then Failure("TypeError: 'meta' does not support item assignment")
    else
      var e := EntryFor(src, dst, claim);
      var m := Set(meta.obj, "translation", Dict(TranslationDict(src, dst, e)));
      var h2 := Set(h1, "meta", Dict(m));
      var copy := if e.claim.Some? then Set(h2, "claim", Str(e.claim.value)) else h2;
      Ok(Translated(copy, if shared then Set(h, "meta", Dict(m)) else h))
  }

  /** `d["meta"]["translation"]` when both are dicts. */
  function TranslationOf(d: Obj): Option<Obj> {
    if "meta" in d.vals && d.vals["meta"].Dict? && "translation" in d.vals["meta"].obj.vals
      && d.vals["meta"].obj.vals["translation"].Dict?
    then Some(d.vals["meta"].obj.vals["translation"].obj)
    else None
  }

  /** `verify_translation_fidelity(original, translated)`: the stored fidelity, 0.5 when missing. */
  function VerifyFidelity(t: Obj, convert: Value -> Result<Float>): (r: Result<Float>)
    ensures TranslationOf(t).Some? && "fidelity" !in TranslationOf(t).value.vals ==> r == Ok(Finite(0.5))
    ensures "meta" !in t.vals ==> r == Ok(Finite(0.5))
  {
    var meta := Get(t, "meta").GetOr(Dict(EmptyObj));
    if !meta.Dict? then Failure("AttributeError: 'meta' has no attribute 'get'")
    else
      var mt := Get(meta.obj, "translation").GetOr(Dict(EmptyObj));
      if !mt.Dict? then Failure("AttributeError: 'translation' has no attribute 'get'")
      else
        match Get(mt.obj, "fidelity")
        case None => Ok(Finite(0.5))
        case Some(v) => AsFloat(v, convert)
  }

  /** Every translation records its domains, its rule when there is one, and its fidelity, in both the copy and a shared `meta`. */
  lemma TranslateRecords(h: Obj, show: Value -> string, src: string, dst: string)
    requires Translate(h, show, src, dst).Ok?
    ensures var r := Translate(h, show, src, dst).value;
      var e := EntryFor(src, dst, ClaimText(h, show));
      && TranslationOf(r.copy) == Some(TranslationDict(src, dst, e))
      && ("meta" in h.vals ==> TranslationOf(r.input) == Some(TranslationDict(src, dst, e)))
      && TranslationDict(src, dst, e).vals["from"] == Str(src)
      && TranslationDict(src, dst, e).vals["to"] == Str(dst)
      && TranslationDict(src, dst, e).vals["fidelity"] == Num(Finite(e.fidelity))
  {
  }

  /** Reading the fidelity back from a translation gives the fidelity the table assigned. */
  lemma FidelityRoundTrip(h: Obj, show: Value -> string, src: string, dst: string, convert: Value -> Result<Float>)
    requires Translate(h, show, src, dst).Ok?
    ensures VerifyFidelity(Translate(h, show, src, dst).value.copy, convert)
      == Ok(Finite(EntryFor(src, dst, ClaimText(h, show)).fidelity))
  {
    TranslateRecords(h, show, src, dst);
  }

  /** Every fidelity the table assigns is at least 0.6, and at most 1, reached only for equal domains. */
  lemma FidelityBounds(src: string, dst: string, claim: string)
    ensures 0.6 <= EntryFor(src, dst, claim).fidelity <= 1.0
    ensures EntryFor(src, dst, claim).fidelity == 1.0 <==> src == dst
  {
  }

  /** Equal domains keep the claim as it was, set no rule, and score 1. */
  lemma SameDomain(h: Obj, show: Value -> string, d: string)
    requires Translate(h, show, d, d).Ok?
    ensures var r := Translate(h, show, d, d).value;
      && Get(r.copy, "claim") == Get(h, "claim")
      && TranslationOf(r.copy).Some? && "rule" !in TranslationOf(r.copy).value.vals
      && TranslationOf(r.copy).value.vals["fidelity"] == Num(Finite(1.0))
  {
  }

  /** The four rewriting pairs, and the fallback for every other pair of distinct domains. */
  lemma TableEntries(claim: string, src: string, dst: string)
    ensures EntryFor("numeric", "boolean", claim) == Entry(Some("threshold>0"), Some("(numeric-claim > 0) implies (" + claim + ")"), 0.8)
    ensures EntryFor("boolean", "probabilistic", claim).fidelity == 0.7
    ensures EntryFor("linguistic", "logical", claim) == Entry(Some("predicate-wrap"), Some("ASSERT(" + claim + ")"), 0.75)
    ensures EntryFor("numeric", "probabilistic", claim).fidelity == 0.65
    ensures src != dst && !((src, dst) in {("numeric", "boolean"), ("boolean", "probabilistic"), ("linguistic", "logical"), ("numeric", "probabilistic")})
      ==> EntryFor(src, dst, claim) == Entry(Some("identity-fallback"), None, 0.6)
  {
  }

  /** The copy keeps every other top-level entry of the input, and the fallback leaves even the claim alone. */
  lemma CopyKeepsOthers(h: Obj, show: Value -> string, src: string, dst: string)
    requires Translate(h, show, src, dst).Ok?
    ensures var r := Translate(h, show, src, dst).value;
      && (forall k | k in h.vals && k != "meta" && k != "claim" :: k in r.copy.vals && r.copy.vals[k] == h.vals[k])
      && (EntryFor(src, dst, ClaimText(h, show)).claim.None? ==> Get(r.copy, "claim") == Get(h, "claim"))
      && (forall k | k in h.vals && k != "meta" :: k in r.input.vals && r.input.vals[k] == h.vals[k])
      && ("meta" in h.vals ==> r.copy.vals["meta"] == r.input.vals["meta"])
      && ("meta" !in h.vals ==> r.input == h)
  {
  }

  /** `translate` as it runs: the returned dict is new, and the input dict itself is changed through its shared `meta`. */
  method TranslateDict(input: JsonDict, show: Value -> string, src: string, dst: string) returns (r: Result<JsonDict>)
    modifies input
    ensures var t := Translate(old(input.obj), show, src, dst);
      && (r.Ok? <==> t.Ok?)
      && (r.Ok? ==> fresh(r.value) && r.value.obj == t.value.copy && input.obj == t.value.input)
      && (r.Failure? ==> input.obj == old(input.obj))
  {
    var t := Translate(input.obj, show, src, dst);
    if t.Failure? {
      r := Failure(t.error);
    } else {
      var copy := new JsonDict(t.value.copy);
      input.obj := t.value.input;
      r := Ok(copy);
    }
  }
}
