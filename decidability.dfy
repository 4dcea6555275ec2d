/**
 * The heuristic decidability gate: four pattern flags searched over the claim
 * and its evidence, a weighted confidence, and an if/elif chain that labels
 * the claim P, NP, EXPTIME or UNDECIDABLE.
 */
module Decidability {
  import opened Wrappers
  import opened Text
  import opened Decimal
  import opened Json

  datatype Complexity = P | NP | EXPTIME | UNDECIDABLE

  /** The results of the four pattern searches: self-reference, loop, paradox, halting. */
  datatype Flags = Flags(selfRef: bool, loop: bool, paradox: bool, halt: bool)

  /** The four compiled patterns, each as `bool(pattern.search(text))`. */
  datatype Patterns = Patterns(selfRef: string -> bool, loop: string -> bool, paradox: string -> bool, halt: string -> bool)

  /** What `test` returns. */
  datatype Verdict = Verdict(decidable: bool, complexity: Complexity, confidence: real, reason: string)

  const Weights: seq<real> := [0.4, 0.3, 0.2, 0.1]

  function FlagList(f: Flags): seq<bool> {
    [f.selfRef, f.loop, f.paradox, f.halt]
  }

  predicate AnyFlag(f: Flags) {
    f.selfRef || f.loop || f.paradox || f.halt
  }

  /** `sum(w[i] for i, f in enumerate(flags) if f)`, over the positions both lists have. */
  function WeightSum(flags: seq<bool>, w: seq<real>): real {
    if flags == [] || w == [] then 0.0
    else (if flags[0] then w[0] else 0.0) + WeightSum(flags[1..], w[1..])
  }

  /** `_confidence`: the weights of the set flags, capped at 1; zero exactly when no flag is set and one exactly when all are. */
  function Confidence(f: Flags): (c: real)
    ensures 0.0 <= c <= 1.0
    ensures c == 0.0 <==> !AnyFlag(f)
    ensures c == 1.0 <==> f.selfRef && f.loop && f.paradox && f.halt
  {
    ConfidenceWeights(f);
    var s := WeightSum(FlagList(f), Weights);
    if s < 1.0 then s else 1.0
  }

  /** The if/elif chain of `test`, given the flags and the length of the stripped claim. */
  function Classify(f: Flags, claimLength: nat): (r: (Complexity, bool, string))
    ensures r.0 == UNDECIDABLE <==> f.paradox || (f.selfRef && f.halt)
    ensures !r.1 <==> r.0 == UNDECIDABLE
    ensures r.0 != UNDECIDABLE && (f.loop || f.halt) ==> r.0 == EXPTIME
    ensures r.0 == EXPTIME <==> !f.paradox && !(f.selfRef && f.halt) && (f.loop || f.halt)
    ensures r.0 == P <==> !AnyFlag(f) && 1 <= claimLength <= 139
    ensures r.0 == NP <==> !f.paradox && !f.loop && !f.halt && (f.selfRef || claimLength == 0 || claimLength >= 140)
  {
    if f.paradox || (f.selfRef && f.halt) then
      (UNDECIDABLE, false, "Self-reference/paradox indicative of undecidability")
    else if f.loop || f.halt then
      (EXPTIME, true, "Potentially intractable; treat as high complexity")
    else if claimLength > 0 && claimLength < 140 && !AnyFlag(f) then
      (P, true, "Simple bounded claim; likely decidable")
    else
      (NP, true, "Complex but no paradox detected")
  }

  /**
   * `(hypothesis.get("claim") or "")`, before `.strip()`: a missing or falsy
   * claim reads as the empty string, and a truthy claim that is not a string
   * has no `strip` method.
   */
  function ClaimOf(hypothesis: Obj): (r: Result<string>)
    ensures "claim" in hypothesis.vals && hypothesis.vals["claim"].Str? ==> r == Ok(hypothesis.vals["claim"].s)
    ensures r.Failure? <==> "claim" in hypothesis.vals && Truthy(hypothesis.vals["claim"]) && !hypothesis.vals["claim"].Str?
  {
    match Get(hypothesis, "claim")
    case None => Ok("")
    case Some(v) =>
      if !Truthy(v) then Ok("")
      else if v.Str? then Ok(v.s)
      else Failure("AttributeError: object has no attribute 'strip'")
  }

  /** `claim + " " + " ".join(str(e) for e in evidence)`, with `str` of a dict given as `show`. */
  function SearchText(claim: string, evidence: seq<Obj>, show: Value -> string): string {
    claim + " " + Join(seq(|evidence|, i requires 0 <= i < |evidence| => show(Dict(evidence[i]))), " ")
  }

  function FlagsOf(p: Patterns, text: string): Flags {
    Flags(p.selfRef(text), p.loop(text), p.paradox(text), p.halt(text))
  }

  /** `DecidabilityGate.test(hypothesis, evidence)`. */
  function Test(p: Patterns, show: Value -> string, hypothesis: Obj, evidence: seq<Obj>): (r: Result<Verdict>)
    ensures r.Failure? <==> ClaimOf(hypothesis).Failure?
  {
    match ClaimOf(hypothesis)
    case Failure(e) => Failure(e)
    case Ok(raw) =>
      var claim := Strip(raw);
      var f := FlagsOf(p, SearchText(claim, evidence, show));
      var c := Classify(f, |claim|);
      Ok(Verdict(c.1, c.0, Confidence(f), c.2))
  }

  /** The verdict is the chain applied to the flags of the whole text and the length of the stripped claim alone, with the confidence of those flags. */
  lemma TestVerdict(p: Patterns, show: Value -> string, hypothesis: Obj, evidence: seq<Obj>)
    requires ClaimOf(hypothesis).Ok?
    ensures var claim := Strip(ClaimOf(hypothesis).value);
      var f := FlagsOf(p, SearchText(claim, evidence, show));
      var r := Test(p, show, hypothesis, evidence).value;
      && r.complexity == Classify(f, |claim|).0
      && (r.decidable <==> r.complexity != UNDECIDABLE)
      && r.confidence == Confidence(f) && 0.0 <= r.confidence <= 1.0
  {
  }

  /** Evidence that leaves the four flags as they were cannot change the verdict: only the flags read it. */
  lemma EvidenceOnlyThroughFlags(p: Patterns, show: Value -> string, hypothesis: Obj, e1: seq<Obj>, e2: seq<Obj>)
    requires ClaimOf(hypothesis).Ok?
    requires var claim := Strip(ClaimOf(hypothesis).value);
      FlagsOf(p, SearchText(claim, e1, show)) == FlagsOf(p, SearchText(claim, e2, show))
    ensures Test(p, show, hypothesis, e1) == Test(p, show, hypothesis, e2)
  {
  }

  /** The weights of the set flags: 0.4, 0.3, 0.2 and 0.1 in flag order. */
  lemma ConfidenceWeights(f: Flags)
    ensures WeightSum(FlagList(f), Weights) == (if f.selfRef then 0.4 else 0.0) + (if f.loop then 0.3 else 0.0)
      + (if f.paradox then 0.2 else 0.0) + (if f.halt then 0.1 else 0.0)
  {
    var fl, w := FlagList(f), Weights;
    assert fl[1..] == fl[1..][..] && fl[1..][1..] == fl[2..] && fl[2..][1..] == fl[3..] && fl[3..][1..] == [];
    assert w[1..][1..] == w[2..] && w[2..][1..] == w[3..] && w[3..][1..] == [];
    assert WeightSum(fl[3..], w[3..]) == (if f.halt then 0.1 else 0.0);
    assert WeightSum(fl[2..], w[2..]) == (if f.paradox then 0.2 else 0.0) + (if f.halt then 0.1 else 0.0);
    assert WeightSum(fl[1..], w[1..]) == (if f.loop then 0.3 else 0.0) + (if f.paradox then 0.2 else 0.0) + (if f.halt then 0.1 else 0.0);
  }

  /** A message with no flag and 139 stripped characters is P; with 140 it is NP. */
  lemma LengthBoundary()
    ensures Classify(Flags(false, false, false, false), 139).0 == P
    ensures Classify(Flags(false, false, false, false), 140).0 == NP
    ensures Classify(Flags(false, false, false, false), 0).0 == NP
    ensures Classify(Flags(true, false, false, false), 10).0 == NP
  {
  }
}
