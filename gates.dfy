/**
 * The triple-gate slot: a Beta-Bernoulli update of the series, the three
 * gates (posterior mean, coherence, MDL gain) with their verdict and
 * reasons, the attention figures, and `Slot.decide`, which writes one
 * evidence, one decision and one receipt record to the slot's ledgers.
 */
module Gates {
  import opened Wrappers
  import opened Text
  import opened Decimal
  import opened Json
  import opened Ledger
  import opened Records
  import opened Series
  import opened Runtime

  /** `GateThresholds`: minimum posterior mean, minimum coherence, maximum MDL bits. */
  datatype Thresholds = Thresholds(bayes: real, coh: real, mdl: real)

  datatype Decision = Accept | Defer | Reject

  /** The verdict as the records spell it. */
  function DecisionName(d: Decision): (s: string) {
    match d
    case Accept => "accept"
    case Defer => "defer"
    case Reject => "reject"
  }

  /** Different verdicts are spelt differently, and so are their receipt statuses. */
  lemma DecisionNameInjective(d: Decision, e: Decision)
    ensures DecisionName(d) == DecisionName(e) <==> d == e
    ensures DecisionName(d) + "ed" == DecisionName(e) + "ed" <==> d == e
  {
    if d != e {
      assert DecisionName(d)[0] != DecisionName(e)[0];
      assert (DecisionName(d) + "ed")[0] == DecisionName(d)[0];
      assert (DecisionName(e) + "ed")[0] == DecisionName(e)[0];
    }
  }

  // ---------------------------------------------------------------------
  // compute_bayesian_update

  /** `sum(1 for x in s if x > m)` */
  function CountAbove(s: seq<real>, m: real): (c: nat)
    ensures c <= |s|
  {
    if s == [] then 0 else (if s[0] > m then 1 else 0) + CountAbove(s[1..], m)
  }

  /** The values strictly above `m` are all of `s` exactly when `CountAbove` says so. */
  lemma {:induction false} CountAboveAll(s: seq<real>, m: real)
    ensures CountAbove(s, m) == |s| <==> forall i | 0 <= i < |s| :: s[i] > m
  {
    if s != [] {
      CountAboveAll(s[1..], m);
      if CountAbove(s, m) == |s| {
        forall i | 0 <= i < |s| ensures s[i] > m {
          if i > 0 {
            assert s[i] == s[1..][i - 1];
          }
        }
      }
      if forall i | 0 <= i < |s| :: s[i] > m {
        assert forall i | 0 <= i < |s| - 1 :: s[1..][i] > m by {
          forall i | 0 <= i < |s| - 1 ensures s[1..][i] > m {
            assert s[1..][i] == s[i + 1];
          }
        }
      }
    }
  }

  /** Successes, failures and the posterior mean. */
  datatype Update = Update(successes: nat, failures: nat, postMean: real)

  /** `compute_bayesian_update(series, prior_a, prior_b)`; the divisions must not be by zero. */
  function BayesianUpdate(series: seq<real>, priorA: real, priorB: real): (u: Update)
    requires if series == [] then priorA + priorB != 0.0 else priorA + priorB + |series| as real != 0.0
  {
    if series == [] then Update(0, 0, priorA / (priorA + priorB))
    else
      var mu := Mean(series);
      var s := CountAbove(series, mu);
      var f := |series| - s;
      var postA, postB := priorA + s as real, priorB + f as real;
      Update(s, f, postA / (postA + postB))
  }

  /**
   * An empty series leaves the prior mean; otherwise the successes are the
   * samples strictly above the mean, successes and failures add up to the
   * length, and the posterior mean is `(a + s) / (a + b + n)`.
   */
  lemma BayesianUpdateCounts(series: seq<real>, priorA: real, priorB: real)
    requires if series == [] then priorA + priorB != 0.0 else priorA + priorB + |series| as real != 0.0
    ensures var u := BayesianUpdate(series, priorA, priorB);
      && (series == [] ==> u == Update(0, 0, priorA / (priorA + priorB)))
      && (series != [] ==> u.successes == CountAbove(series, Mean(series)))
      && u.successes + u.failures == |series|
      && u.postMean == (priorA + u.successes as real) / (priorA + priorB + |series| as real)
  {
    if series == [] {
      PosteriorOfEmpty(priorA, priorB);
    } else {
      PosteriorOfSamples(series, priorA, priorB);
    }
  }

  lemma PosteriorOfEmpty(priorA: real, priorB: real)
    requires priorA + priorB != 0.0
    ensures var u := BayesianUpdate([], priorA, priorB);
      u.postMean == (priorA + u.successes as real) / (priorA + priorB + 0 as real)
  {
    assert priorA + 0 as real == priorA && priorA + priorB + 0 as real == priorA + priorB;
  }

  lemma PosteriorOfSamples(series: seq<real>, priorA: real, priorB: real)
    requires series != [] && priorA + priorB + |series| as real != 0.0
    ensures var u := BayesianUpdate(series, priorA, priorB);
      u.postMean == (priorA + u.successes as real) / (priorA + priorB + |series| as real)
  {
    var u := BayesianUpdate(series, priorA, priorB);
    var s := CountAbove(series, Mean(series));
    var postA, postB := priorA + s as real, priorB + (|series| - s) as real;
    assert u.successes == s;
    assert u.postMean == postA / (postA + postB);
    assert postA + postB == priorA + priorB + |series| as real;
  }

  /** Not every sample of a non-empty series lies above its own mean: there is at least one failure. */
  lemma BayesianUpdateFails(series: seq<real>, priorA: real, priorB: real)
    requires series != [] && priorA + priorB + |series| as real != 0.0
    ensures BayesianUpdate(series, priorA, priorB).failures >= 1
  {
    var mu := Mean(series);
    CountAboveAll(series, mu);
    if CountAbove(series, mu) == |series| {
      SumAbove(series, mu);
    }
  }

  /** With positive priors the posterior mean lies strictly between 0 and 1. */
  lemma BayesianUpdateRange(series: seq<real>, priorA: real, priorB: real)
    requires priorA > 0.0 && priorB > 0.0
    ensures 0.0 < BayesianUpdate(series, priorA, priorB).postMean < 1.0
  {
    BayesianUpdateCounts(series, priorA, priorB);
    var u := BayesianUpdate(series, priorA, priorB);
    Fraction(priorA + u.successes as real, priorA + priorB + |series| as real);
  }

  lemma Fraction(x: real, y: real)
    requires 0.0 < x < y
    ensures 0.0 < x / y < 1.0
  {
    var q := x / y;
    assert q * y == x;
    if q >= 1.0 {
      assert false;
    }
  }

  /** `compute_bayesian_update([1, 2, 3, 4, 5])` with the default priors: 2 above the mean 3, 3 not, mean 3/7. */
  lemma BayesianUpdateExample()
    ensures BayesianUpdate([1.0, 2.0, 3.0, 4.0, 5.0], 1.0, 1.0) == Update(2, 3, 3.0 / 7.0)
  {
    var s := [1.0, 2.0, 3.0, 4.0, 5.0];
    assert Sum(s) == 15.0 by {
      assert s[1..] == [2.0, 3.0, 4.0, 5.0];
      assert s[1..][1..] == [3.0, 4.0, 5.0];
      assert s[1..][1..][1..] == [4.0, 5.0];
      assert s[1..][1..][1..][1..] == [5.0];
    }
    assert CountAbove(s, 3.0) == 2 by {
      assert s[1..] == [2.0, 3.0, 4.0, 5.0];
      assert s[1..][1..] == [3.0, 4.0, 5.0];
      assert s[1..][1..][1..] == [4.0, 5.0];
      assert s[1..][1..][1..][1..] == [5.0];
    }
  }

  // ---------------------------------------------------------------------
  // compute_attention_metrics

  function Min(x: real, y: real): real {
    if x <= y then x else y
  }

  function Max(x: real, y: real): real {
    if x >= y then x else y
  }

  /** `sum(abs(x - mu) for x in s)` */
  function AbsDeviation(s: seq<real>, mu: real): (r: real)
    ensures r >= 0.0
  {
    if s == [] then 0.0 else Abs(s[0] - mu) + AbsDeviation(s[1..], mu)
  }

  /** `AttentionMetrics(nov, coh, risk, chaos, att)` */
  datatype Attention = Attention(nov: real, coh: real, risk: real, chaos: real, att: real)

  /** `min(1.0, abs(mu) / (1 + abs(mu)))`: how far the mean is from zero, in [0, 1). */
  function Novelty(mu: real): (r: real)
    ensures 0.0 <= r < 1.0
  {
    Squashed(Abs(mu));
    Min(1.0, Abs(mu) / (1.0 + Abs(mu)))
  }

  /** `min(1.0, x / scale)`: at most 1, and not negative for a non-negative `x`. */
  function Capped(x: real, scale: real): (r: real)
    requires scale > 0.0
    ensures r <= 1.0 && (x >= 0.0 ==> r >= 0.0) && (x > 0.0 ==> r > 0.0)
  {
    Quotient(x, scale);
    Min(1.0, x / scale)
  }

  /** `min(1.0, max(0.0, -min(0.0, mdl_bits)) / 16.0)`: only an MDL gain below zero carries risk. */
  function Risk(mdlBits: real): (r: real)
    ensures 0.0 <= r <= 1.0
    ensures r == 0.0 <==> mdlBits >= 0.0
  {
    Capped(Max(0.0, -Min(0.0, mdlBits)), 16.0)
  }

  /** `1.0 / (1.0 + math.exp(-logit))` */
  function Logistic(n: Numerics, logit: real): (r: real)
    ensures 0.0 < r < 1.0
  {
    Sigmoid(n.exp(-logit));
    1.0 / (1.0 + n.exp(-logit))
  }

  /**
   * `compute_attention_metrics(series, coh, mdl_bits)`, with `math.exp` taken
   * from `n`: novelty in [0, 1), normalised coherence at most 1 (and not
   * negative for a non-negative score), risk and chaos in [0, 1] with no risk
   * unless the MDL gain is negative, and attention strictly between 0 and 1;
   * all zero for an empty series.
   */
  function AttentionMetrics(n: Numerics, series: seq<real>, coh: real, mdlBits: real): (a: Attention)
    ensures series == [] ==> a == Attention(0.0, 0.0, 0.0, 0.0, 0.0)
    ensures 0.0 <= a.nov < 1.0 && a.coh <= 1.0 && (coh >= 0.0 ==> a.coh >= 0.0)
    ensures 0.0 <= a.risk <= 1.0 && (series != [] ==> (a.risk == 0.0 <==> mdlBits >= 0.0))
    ensures 0.0 <= a.chaos <= 1.0
    ensures series != [] ==> 0.0 < a.att < 1.0
  {
    if series == [] then Attention(0.0, 0.0, 0.0, 0.0, 0.0)
    else
      var mu := Mean(series);
      var nov, cohN, riskN := Novelty(mu), Capped(coh, 12.0), Risk(mdlBits);
      var chaos := Capped(AbsDeviation(series, mu), |series| as real * (1.0 + Abs(mu)));
      Attention(nov, cohN, riskN, chaos, Logistic(n, 0.4 * nov + 0.3 * cohN - 0.2 * riskN - 0.1 * chaos))
  }

  lemma Squashed(x: real)
    requires x >= 0.0
    ensures 0.0 <= x / (1.0 + x) < 1.0
  {
  }

  lemma Quotient(x: real, y: real)
    requires y > 0.0
    ensures x >= 0.0 ==> x / y >= 0.0
    ensures x > 0.0 ==> x / y > 0.0
  {
  }

  lemma Sigmoid(e: real)
    requires e > 0.0
    ensures 0.0 < 1.0 / (1.0 + e) < 1.0
  {
  }

  /** The attention figures as the decision record stores them, keyed `nov`, `coh`, `risk`, `chaos`, `att`. */
  function AttentionDict(a: Attention): (d: FloatDict)
    ensures FloatDictWF(d)
  {
    var d := FloatDict(["nov", "coh", "risk", "chaos", "att"],
      map["nov" := a.nov, "coh" := a.coh, "risk" := a.risk, "chaos" := a.chaos, "att" := a.att]);
    assert Distinct(d.keys);
    d
  }

  // ---------------------------------------------------------------------
  // evaluate_gates

  /** Which gates the scores pass: posterior at least `bayes`, coherence at least `coh`, MDL bits at most `mdl`. */
  predicate PassesBayes(post: real, t: Thresholds) { post >= t.bayes }
  predicate PassesCoherence(coh: real, t: Thresholds) { coh >= t.coh }
  predicate PassesMdl(mdl: real, t: Thresholds) { mdl <= t.mdl }

  /** One reason line: `<tag>=<value> <op> <threshold>`. */
  function Reason(tag: string, value: string, op: string, threshold: string): string {
    Join([tag + "=" + value, op, threshold], " ")
  }

  /** The three reason lines from the rendered figures and the gate outcomes. */
  function ReasonLines(post: string, coh: string, mdl: string, bayesT: string, cohT: string, mdlT: string,
                       okB: bool, okC: bool, okM: bool): (rs: seq<string>)
    ensures |rs| == 3
  {
    [Reason("posterior_mean", post, if okB then ">=" else "<", bayesT),
     Reason("coherence", coh, if okC then ">=" else "<", cohT),
     Reason("mdl_bits", mdl, if okM then "<=" else ">", mdlT)]
  }

  /** The three reason lines, with `{:.3f}` for the posterior and `{:.2f}` for everything else. */
  function Reasons(post: real, coh: real, mdl: real, t: Thresholds): (rs: seq<string>)
    ensures |rs| == 3
  {
    ReasonLines(FormatFixed(Finite(post), 3), FormatFixed(Finite(coh), 2), FormatFixed(Finite(mdl), 2),
      FormatFixed(Finite(t.bayes), 2), FormatFixed(Finite(t.coh), 2), FormatFixed(Finite(t.mdl), 2),
      PassesBayes(post, t), PassesCoherence(coh, t), PassesMdl(mdl, t))
  }

  /** A line of three space-separated words whose middle word is `op`. */
  predicate Says(line: string, op: string) {
    var w := Split(line, ' ');
    |w| == 3 && w[1] == op
  }

  /** The decision of `evaluate_gates`: accept when all three gates pass, reject when the first two fail, defer otherwise. */
  function GateDecision(post: real, coh: real, mdl: real, t: Thresholds): Decision {
    var okB, okC, okM := PassesBayes(post, t), PassesCoherence(coh, t), PassesMdl(mdl, t);
    if okB && okC && okM then Accept else if okB || okC then Defer else Reject
  }

  /** `evaluate_gates(post_mean, coh, mdl_bits, thresholds)` */
  function EvaluateGates(post: real, coh: real, mdl: real, t: Thresholds): (r: (Decision, seq<string>))
    ensures r.0 == Accept <==> PassesBayes(post, t) && PassesCoherence(coh, t) && PassesMdl(mdl, t)
    ensures r.0 == Reject <==> !PassesBayes(post, t) && !PassesCoherence(coh, t)
    ensures r.0 == Defer <==> (PassesBayes(post, t) || PassesCoherence(coh, t)) && !(PassesBayes(post, t) && PassesCoherence(coh, t) && PassesMdl(mdl, t))
    ensures r.1 == Reasons(post, coh, mdl, t)
  {
    (GateDecision(post, coh, mdl, t), Reasons(post, coh, mdl, t))
  }

  /** `f"{x:.nf}"` contains no space, so the reason lines split into their three words. */
  lemma FormatFixedNoSpace(f: Float, d: nat)
    ensures ' ' !in FormatFixed(f, d)
  {
    match f
    case Finite(x) =>
      var i, fr := IntDigits(Scaled(x, d), d), FracDigits(Scaled(x, d), d);
      assert forall j | 0 <= j < |i| :: IsDigit(i[j]);
      assert forall j | 0 <= j < |fr| :: IsDigit(fr[j]);
      var s := FormatFixed(f, d);
      assert s == (if x < 0.0 then "-" else "") + i + (if d == 0 then "" else "." + fr);
    case NegZero =>
      var i, fr := IntDigits(0, d), FracDigits(0, d);
      assert forall j | 0 <= j < |i| :: IsDigit(i[j]);
      assert forall j | 0 <= j < |fr| :: IsDigit(fr[j]);
    case _ =>
  }

  /** A reason line splits on spaces into the labelled value, the comparison and the threshold. */
  lemma ReasonWords(tag: string, value: string, op: string, threshold: string)
    requires ' ' !in tag && ' ' !in value && ' ' !in op && ' ' !in threshold
    ensures Split(Reason(tag, value, op, threshold), ' ') == [tag + "=" + value, op, threshold]
    ensures StartsWith(Reason(tag, value, op, threshold), tag + "=")
  {
    var parts := [tag + "=" + value, op, threshold];
    assert ' ' !in tag + "=" + value;
    SplitJoin(parts, ' ');
    var r := Reason(tag, value, op, threshold);
    assert parts[1..] == [op, threshold];
    assert r == (tag + "=") + (value + " " + Join([op, threshold], " "));
  }

  /** A reason line starts with its tag, and reads `pass` exactly when the gate passed and `fail` exactly when it did not. */
  lemma ReasonSays(tag: string, value: string, ok: bool, pass: string, fail: string, threshold: string)
    requires ' ' !in tag && ' ' !in value && ' ' !in pass && ' ' !in fail && ' ' !in threshold && pass != fail
    ensures var r := Reason(tag, value, if ok then pass else fail, threshold);
      StartsWith(r, tag + "=") && (Says(r, pass) <==> ok) && (Says(r, fail) <==> !ok)
  {
    ReasonWords(tag, value, if ok then pass else fail, threshold);
  }

  lemma ReasonLinesReport(post: string, coh: string, mdl: string, bayesT: string, cohT: string, mdlT: string,
                          okB: bool, okC: bool, okM: bool)
    requires ' ' !in post && ' ' !in coh && ' ' !in mdl && ' ' !in bayesT && ' ' !in cohT && ' ' !in mdlT
    ensures var rs := ReasonLines(post, coh, mdl, bayesT, cohT, mdlT, okB, okC, okM);
      && StartsWith(rs[0], "posterior_mean=") && StartsWith(rs[1], "coherence=") && StartsWith(rs[2], "mdl_bits=")
      && (Says(rs[0], ">=") <==> okB) && (Says(rs[0], "<") <==> !okB)
      && (Says(rs[1], ">=") <==> okC) && (Says(rs[1], "<") <==> !okC)
      && (Says(rs[2], "<=") <==> okM) && (Says(rs[2], ">") <==> !okM)
  {
    var rs := ReasonLines(post, coh, mdl, bayesT, cohT, mdlT, okB, okC, okM);
    ReasonSays("posterior_mean", post, okB, ">=", "<", bayesT);
    assert rs[0] == Reason("posterior_mean", post, if okB then ">=" else "<", bayesT);
    ReasonSays("coherence", coh, okC, ">=", "<", cohT);
    assert rs[1] == Reason("coherence", coh, if okC then ">=" else "<", cohT);
    ReasonSays("mdl_bits", mdl, okM, "<=", ">", mdlT);
    assert rs[2] == Reason("mdl_bits", mdl, if okM then "<=" else ">", mdlT);
  }

  /**
   * The reasons come in the order bayes, coherence, mdl, and the comparison
   * word of each reads `>=` (`<=` for MDL) exactly when that gate passes and
   * `<` (`>`) exactly when it fails.
   */
  lemma ReasonsReportGates(post: real, coh: real, mdl: real, t: Thresholds)
    ensures var rs := Reasons(post, coh, mdl, t);
      && StartsWith(rs[0], "posterior_mean=") && StartsWith(rs[1], "coherence=") && StartsWith(rs[2], "mdl_bits=")
      && (Says(rs[0], ">=") <==> PassesBayes(post, t)) && (Says(rs[0], "<") <==> !PassesBayes(post, t))
      && (Says(rs[1], ">=") <==> PassesCoherence(coh, t)) && (Says(rs[1], "<") <==> !PassesCoherence(coh, t))
      && (Says(rs[2], "<=") <==> PassesMdl(mdl, t)) && (Says(rs[2], ">") <==> !PassesMdl(mdl, t))
  {
    FormatFixedNoSpace(Finite(post), 3);
    FormatFixedNoSpace(Finite(coh), 2);
    FormatFixedNoSpace(Finite(mdl), 2);
    FormatFixedNoSpace(Finite(t.bayes), 2);
    FormatFixedNoSpace(Finite(t.coh), 2);
    FormatFixedNoSpace(Finite(t.mdl), 2);
    ReasonLinesReport(FormatFixed(Finite(post), 3), FormatFixed(Finite(coh), 2), FormatFixed(Finite(mdl), 2),
      FormatFixed(Finite(t.bayes), 2), FormatFixed(Finite(t.coh), 2), FormatFixed(Finite(t.mdl), 2),
      PassesBayes(post, t), PassesCoherence(coh, t), PassesMdl(mdl, t));
  }

  /** The example thresholds (0.7, 7.0, -5.0): strong scores accept, weak ones reject, mixed ones defer. */
  lemma GateExamples()
    ensures EvaluateGates(0.85, 10.0, -8.0, Thresholds(0.7, 7.0, -5.0)).0 == Accept
    ensures EvaluateGates(0.3, 2.0, 5.0, Thresholds(0.7, 7.0, -5.0)).0 == Reject
    ensures EvaluateGates(0.75, 5.0, 2.0, Thresholds(0.7, 7.0, -5.0)).0 == Defer
  {
  }

  // ---------------------------------------------------------------------
  // Slot.decide

  /** The four records `decide` builds, each stamped with its ukh: the test, the evidence, the decision and the receipt. */
  datatype Outcome = Outcome(test: Obj, evidence: Obj, decision: Obj, receipt: Obj)

  /** The four clock readings `decide` takes, one per record, in the order the records are built. */
  datatype Readings = Readings(test: string, evidence: string, decision: string, receipt: string)

  /** The readings of `clock` from call number `tick` on. */
  function ReadingsFrom(clock: nat -> string, tick: nat): Readings {
    Readings(clock(tick), clock(tick + 1), clock(tick + 2), clock(tick + 3))
  }

  /** `compute_bayesian_update(series)` with the default prior Beta(1, 1). */
  function DefaultUpdate(series: seq<real>): Update {
    BayesianUpdate(series, 1.0, 1.0)
  }

  /**
   * What `decide` builds for hypothesis `hyp` of hemisphere `hemi` under
   * thresholds `t`, with clock readings `ts` and the uuid `u` for the test id.
   */
  function Decided(h: Hasher, n: Numerics, ts: Readings, u: UuidHex, hemi: string,
                   t: Thresholds, hyp: string, series: seq<real>): Outcome
  {
    var up := DefaultUpdate(series);
    var coh, mdl := n.peakMean(series), n.mdlBits(series);
    var tstId := GenId("tst", u);
    var evid := EvidenceRecord(h, ts.evidence, tstId, hyp, up, coh, mdl);
    var gates := EvaluateGates(up.postMean, coh, mdl, t);
    var dec := DecisionRecord(h, ts.decision, hyp, tstId, gates.0, t, AttentionMetrics(n, series, coh, mdl), gates.1);
    Outcome(TestRecord(h, ts.test, u, hyp), evid, dec,
      ReceiptRecord(h, ts.receipt, hemi, gates.0, hyp, UkhOf(evid), UkhOf(dec)))
  }

  /** `add_ukh(AGL_Test(hyp_id))` */
  function TestRecord(h: Hasher, ts: string, u: UuidHex, hyp: string): (r: Obj)
    ensures WFObj(r) && Sealed(h, r)
  {
    TestWF(ts, u, hyp, None, None);
    StampSeals(h, Test(ts, u, hyp, None, None));
    Stamp(h, Test(ts, u, hyp, None, None))
  }

  /** `add_ukh(AGL_Evidence(tst_id, hyp_id, post_mean, coh, mdl_bits, successes, failures))` */
  function EvidenceRecord(h: Hasher, ts: string, tstId: string, hyp: string, up: Update, coh: real, mdl: real): (r: Obj)
    ensures WFObj(r) && Sealed(h, r)
  {
    EvidenceWF(ts, tstId, hyp, up.postMean, coh, mdl, up.successes, up.failures);
    StampSeals(h, Evidence(ts, tstId, hyp, up.postMean, coh, mdl, up.successes, up.failures));
    Stamp(h, Evidence(ts, tstId, hyp, up.postMean, coh, mdl, up.successes, up.failures))
  }

  /** `add_ukh(AGL_SlotDecision(hyp_id, tst_id, decision, thresholds, attention, reasons))` */
  function DecisionRecord(h: Hasher, ts: string, hyp: string, tstId: string, d: Decision, t: Thresholds,
                          a: Attention, reasons: seq<string>): (r: Obj)
    ensures WFObj(r) && Sealed(h, r)
  {
    SlotDecisionWF(ts, hyp, tstId, DecisionName(d), t.bayes, t.coh, t.mdl, AttentionDict(a), reasons);
    StampSeals(h, SlotDecision(ts, hyp, tstId, DecisionName(d), t.bayes, t.coh, t.mdl, AttentionDict(a), reasons));
    Stamp(h, SlotDecision(ts, hyp, tstId, DecisionName(d), t.bayes, t.coh, t.mdl, AttentionDict(a), reasons))
  }

  /** `add_ukh(AGL_Receipt(f"slot_{hemi}", decision + "ed", hyp_id, evid_ukh, dec_ukh, note=f"hemi={hemi}"))` */
  function ReceiptRecord(h: Hasher, ts: string, hemi: string, d: Decision, hyp: string, evidUkh: string,
                         decUkh: string): (r: Obj)
    ensures WFObj(r) && Sealed(h, r)
  {
    var status := DecisionName(d) + "ed";
    ReceiptWF(ts, "slot_" + hemi, status, hyp, evidUkh, decUkh, "hemi=" + hemi);
    StampSeals(h, Receipt(ts, "slot_" + hemi, status, hyp, evidUkh, decUkh, "hemi=" + hemi));
    Stamp(h, Receipt(ts, "slot_" + hemi, status, hyp, evidUkh, decUkh, "hemi=" + hemi))
  }

  /** The stamped test keeps the test's id and hypothesis. */
  lemma TestRecordFields(h: Hasher, ts: string, u: UuidHex, hyp: string)
    ensures var r := TestRecord(h, ts, u, hyp);
      && Stamped(r, "AGL/Test", ts) && Get(r, "id") == Some(Str(GenId("tst", u))) && Get(r, "hyp") == Some(Str(hyp))
  {
    var o := Test(ts, u, hyp, None, None);
    TestWF(ts, u, hyp, None, None);
    TestFields(ts, u, hyp, None, None);
    StampKeeps(h, o, "spec");
    StampKeeps(h, o, "schema");
    StampKeeps(h, o, "ts");
    StampKeeps(h, o, "id");
    StampKeeps(h, o, "hyp");
  }

  /** The stamped evidence names its test and hypothesis. */
  lemma EvidenceRecordFields(h: Hasher, ts: string, tstId: string, hyp: string, up: Update, coh: real, mdl: real)
    ensures var r := EvidenceRecord(h, ts, tstId, hyp, up, coh, mdl);
      && Stamped(r, "AGL/Evidence", ts) && Get(r, "tst") == Some(Str(tstId)) && Get(r, "hyp") == Some(Str(hyp))
  {
    var o := Evidence(ts, tstId, hyp, up.postMean, coh, mdl, up.successes, up.failures);
    EvidenceWF(ts, tstId, hyp, up.postMean, coh, mdl, up.successes, up.failures);
    EvidenceFields(ts, tstId, hyp, up.postMean, coh, mdl, up.successes, up.failures);
    StampKeeps(h, o, "spec");
    StampKeeps(h, o, "schema");
    StampKeeps(h, o, "ts");
    StampKeeps(h, o, "tst");
    StampKeeps(h, o, "hyp");
  }

  /** The stamped decision carries its hypothesis, test, verdict and reasons. */
  lemma DecisionRecordFields(h: Hasher, ts: string, hyp: string, tstId: string, d: Decision, t: Thresholds,
                             a: Attention, reasons: seq<string>)
    ensures var r := DecisionRecord(h, ts, hyp, tstId, d, t, a, reasons);
      && Stamped(r, "AGL/SlotDecision", ts) && Get(r, "hyp") == Some(Str(hyp)) && Get(r, "tst") == Some(Str(tstId))
      && Get(r, "decision") == Some(Str(DecisionName(d))) && Get(r, "reason") == Some(StrList(reasons))
  {
    var att := AttentionDict(a);
    var o := SlotDecision(ts, hyp, tstId, DecisionName(d), t.bayes, t.coh, t.mdl, att, reasons);
    SlotDecisionWF(ts, hyp, tstId, DecisionName(d), t.bayes, t.coh, t.mdl, att, reasons);
    SlotDecisionFields(ts, hyp, tstId, DecisionName(d), t.bayes, t.coh, t.mdl, att, reasons);
    StampKeeps(h, o, "spec");
    StampKeeps(h, o, "schema");
    StampKeeps(h, o, "ts");
    StampKeeps(h, o, "hyp");
    StampKeeps(h, o, "tst");
    StampKeeps(h, o, "decision");
    StampKeeps(h, o, "reason");
  }

  /** The stamped decision records the thresholds it was judged by. */
  lemma DecisionRecordSnapshot(h: Hasher, ts: string, hyp: string, tstId: string, d: Decision, t: Thresholds,
                               a: Attention, reasons: seq<string>)
    ensures var r := Dict(DecisionRecord(h, ts, hyp, tstId, d, t, a, reasons));
      && Lookup(r, ["gate", "bayes_threshold"]) == Some(Dec(t.bayes))
      && Lookup(r, ["gate", "coherence_threshold"]) == Some(Dec(t.coh))
      && Lookup(r, ["gate", "mdl_threshold"]) == Some(Dec(t.mdl))
  {
    var att := AttentionDict(a);
    var o := SlotDecision(ts, hyp, tstId, DecisionName(d), t.bayes, t.coh, t.mdl, att, reasons);
    SlotDecisionWF(ts, hyp, tstId, DecisionName(d), t.bayes, t.coh, t.mdl, att, reasons);
    SlotDecisionScores(ts, hyp, tstId, DecisionName(d), t.bayes, t.coh, t.mdl, att, reasons);
    var r := Dict(DecisionRecord(h, ts, hyp, tstId, d, t, a, reasons));
    StampKeeps(h, o, "gate");
    LookupPath2(r, "gate", "bayes_threshold");
    LookupPath2(r, "gate", "coherence_threshold");
    LookupPath2(r, "gate", "mdl_threshold");
    LookupPath2(Dict(o), "gate", "bayes_threshold");
    LookupPath2(Dict(o), "gate", "coherence_threshold");
    LookupPath2(Dict(o), "gate", "mdl_threshold");
  }

  /** The stamped receipt copies its arguments. */
  lemma ReceiptRecordFields(h: Hasher, ts: string, hemi: string, d: Decision, hyp: string, evidUkh: string,
                            decUkh: string)
    ensures var r := ReceiptRecord(h, ts, hemi, d, hyp, evidUkh, decUkh);
      && Stamped(r, "AGL/Receipt", ts)
      && Get(r, "slot_id") == Some(Str("slot_" + hemi)) && Get(r, "status") == Some(Str(DecisionName(d) + "ed"))
      && Get(r, "hyp") == Some(Str(hyp)) && Get(r, "evid") == Some(Str(evidUkh)) && Get(r, "decision_ukh") == Some(Str(decUkh))
      && Get(r, "note") == Some(Str("hemi=" + hemi))
  {
    var status := DecisionName(d) + "ed";
    var o := Receipt(ts, "slot_" + hemi, status, hyp, evidUkh, decUkh, "hemi=" + hemi);
    ReceiptWF(ts, "slot_" + hemi, status, hyp, evidUkh, decUkh, "hemi=" + hemi);
    ReceiptFields(ts, "slot_" + hemi, status, hyp, evidUkh, decUkh, "hemi=" + hemi);
    StampKeeps(h, o, "spec");
    StampKeeps(h, o, "schema");
    StampKeeps(h, o, "ts");
    StampKeeps(h, o, "slot_id");
    StampKeeps(h, o, "status");
    StampKeeps(h, o, "hyp");
    StampKeeps(h, o, "evid");
    StampKeeps(h, o, "decision_ukh");
    StampKeeps(h, o, "note");
  }

  /** The evidence and the decision name the test `decide` drew, and all four records name the hypothesis. */
  lemma DecidedLinks(h: Hasher, n: Numerics, ts: Readings, u: UuidHex, hemi: string,
                     t: Thresholds, hyp: string, series: seq<real>)
    ensures var o := Decided(h, n, ts, u, hemi, t, hyp, series);
      && Get(o.test, "id") == Some(Str(GenId("tst", u)))
      && Get(o.evidence, "tst") == Get(o.test, "id") && Get(o.decision, "tst") == Get(o.test, "id")
      && Get(o.test, "hyp") == Get(o.evidence, "hyp") == Get(o.decision, "hyp") == Get(o.receipt, "hyp")
         == Some(Str(hyp))
  {
    var up := DefaultUpdate(series);
    var coh, mdl := n.peakMean(series), n.mdlBits(series);
    var tstId := GenId("tst", u);
    var gates := EvaluateGates(up.postMean, coh, mdl, t);
    var att := AttentionMetrics(n, series, coh, mdl);
    var evid := EvidenceRecord(h, ts.evidence, tstId, hyp, up, coh, mdl);
    var dec := DecisionRecord(h, ts.decision, hyp, tstId, gates.0, t, att, gates.1);
    TestRecordFields(h, ts.test, u, hyp);
    EvidenceRecordFields(h, ts.evidence, tstId, hyp, up, coh, mdl);
    DecisionRecordFields(h, ts.decision, hyp, tstId, gates.0, t, att, gates.1);
    ReceiptRecordFields(h, ts.receipt, hemi, gates.0, hyp, UkhOf(evid), UkhOf(dec));
  }

  /**
   * The decision records the verdict and the reasons of the three gates on the
   * series' posterior mean, coherence and MDL gain, and the receipt's status
   * is the verdict with "ed" appended.
   */
  lemma DecidedVerdict(h: Hasher, n: Numerics, ts: Readings, u: UuidHex, hemi: string,
                     t: Thresholds, hyp: string, series: seq<real>)
    ensures var o := Decided(h, n, ts, u, hemi, t, hyp, series);
      var g := EvaluateGates(DefaultUpdate(series).postMean, n.peakMean(series), n.mdlBits(series), t);
      && Get(o.decision, "decision") == Some(Str(DecisionName(g.0)))
      && Get(o.decision, "reason") == Some(StrList(g.1))
      && Get(o.receipt, "status") == Some(Str(DecisionName(g.0) + "ed"))
  {
    var up := DefaultUpdate(series);
    var coh, mdl := n.peakMean(series), n.mdlBits(series);
    var tstId := GenId("tst", u);
    var gates := EvaluateGates(up.postMean, coh, mdl, t);
    var att := AttentionMetrics(n, series, coh, mdl);
    var evid := EvidenceRecord(h, ts.evidence, tstId, hyp, up, coh, mdl);
    var dec := DecisionRecord(h, ts.decision, hyp, tstId, gates.0, t, att, gates.1);
    DecisionRecordFields(h, ts.decision, hyp, tstId, gates.0, t, att, gates.1);
    ReceiptRecordFields(h, ts.receipt, hemi, gates.0, hyp, UkhOf(evid), UkhOf(dec));
  }

  /** The receipt names the slot and carries the `ukh` of the evidence and of the decision. */
  lemma DecidedReceipt(h: Hasher, n: Numerics, ts: Readings, u: UuidHex, hemi: string,
                     t: Thresholds, hyp: string, series: seq<real>)
    ensures var o := Decided(h, n, ts, u, hemi, t, hyp, series);
      && Get(o.receipt, "slot_id") == Some(Str("slot_" + hemi))
      && Get(o.receipt, "note") == Some(Str("hemi=" + hemi))
      && Get(o.receipt, "evid") == Get(o.evidence, UkhKey)
      && Get(o.receipt, "decision_ukh") == Get(o.decision, UkhKey)
  {
    var up := DefaultUpdate(series);
    var coh, mdl := n.peakMean(series), n.mdlBits(series);
    var tstId := GenId("tst", u);
    var gates := EvaluateGates(up.postMean, coh, mdl, t);
    var att := AttentionMetrics(n, series, coh, mdl);
    var evid := EvidenceRecord(h, ts.evidence, tstId, hyp, up, coh, mdl);
    var dec := DecisionRecord(h, ts.decision, hyp, tstId, gates.0, t, att, gates.1);
    ReceiptRecordFields(h, ts.receipt, hemi, gates.0, hyp, UkhOf(evid), UkhOf(dec));
    SealedUkh(h, evid);
    SealedUkh(h, dec);
  }

  /** The decision records the thresholds of the slot at the time of the call. */
  lemma DecidedSnapshot(h: Hasher, n: Numerics, ts: Readings, u: UuidHex, hemi: string,
                     t: Thresholds, hyp: string, series: seq<real>)
    ensures var d := Dict(Decided(h, n, ts, u, hemi, t, hyp, series).decision);
      && Lookup(d, ["gate", "bayes_threshold"]) == Some(Dec(t.bayes))
      && Lookup(d, ["gate", "coherence_threshold"]) == Some(Dec(t.coh))
      && Lookup(d, ["gate", "mdl_threshold"]) == Some(Dec(t.mdl))
  {
    var up := DefaultUpdate(series);
    var coh, mdl := n.peakMean(series), n.mdlBits(series);
    var tstId := GenId("tst", u);
    var gates := EvaluateGates(up.postMean, coh, mdl, t);
    var att := AttentionMetrics(n, series, coh, mdl);
    var evid := EvidenceRecord(h, ts.evidence, tstId, hyp, up, coh, mdl);
    var dec := DecisionRecord(h, ts.decision, hyp, tstId, gates.0, t, att, gates.1);
    DecisionRecordSnapshot(h, ts.decision, hyp, tstId, gates.0, t, att, gates.1);
  }

  /** Every record carries its `ukh` and is sealed by it. */
  predicate AllSealed(h: Hasher, o: Outcome) {
    && WFObj(o.test) && WFObj(o.evidence) && WFObj(o.decision) && WFObj(o.receipt)
    && Sealed(h, o.test) && Sealed(h, o.evidence) && Sealed(h, o.decision) && Sealed(h, o.receipt)
  }

  /** The four records of a decision are each stamped with the hash of their own canonical form. */
  lemma DecidedSealed(h: Hasher, n: Numerics, ts: Readings, u: UuidHex, hemi: string,
                      t: Thresholds, hyp: string, series: seq<real>)
    ensures AllSealed(h, Decided(h, n, ts, u, hemi, t, hyp, series))
  {
  }

  /**
   * The clock readings and the uuid `decide` draws: the test's timestamp, its
   * uuid, then the timestamps of the evidence, the decision and the receipt.
   */
  method Draw(env: Env) returns (ts: Readings, u: UuidHex)
    modifies env
    ensures ts == ReadingsFrom(env.clock, old(env.ticks)) && u == env.uuids(old(env.draws))
    ensures env.ticks == old(env.ticks) + 4 && env.draws == old(env.draws) + 1
  {
    var t0 := env.NowIso();
    u := env.Uuid4();
    var t1 := env.NowIso();
    var t2 := env.NowIso();
    var t3 := env.NowIso();
    ts := Readings(t0, t1, t2, t3);
  }

  /** A slot: its name, its hemisphere, the thresholds it applies and its three ledgers. */
  class Slot {
    const name: string
    const hemi: string
    var thresholds: Thresholds
    const receiptsPath: string
    const evidencePath: string
    const decisionsPath: string

    constructor (name: string, hemi: string, thresholds: Thresholds,
                 receiptsPath: string, evidencePath: string, decisionsPath: string)
      ensures this.name == name && this.hemi == hemi && this.thresholds == thresholds
      ensures this.receiptsPath == receiptsPath && this.evidencePath == evidencePath
      ensures this.decisionsPath == decisionsPath
    {
      this.name := name;
      this.hemi := hemi;
      this.thresholds := thresholds;
      this.receiptsPath := receiptsPath;
      this.evidencePath := evidencePath;
      this.decisionsPath := decisionsPath;
    }

    /**
     * The records of `decide` once the clock and the uuid are read, appended
     * to their ledgers.
     */
    method Record(h: Hasher, n: Numerics, store: Store, ts: Readings, u: UuidHex, t: Thresholds,
                  hypId: string, series: seq<real>) returns (o: Outcome)
      requires store.Valid()
      modifies store
      ensures store.Valid()
      ensures o == Decided(h, n, ts, u, hemi, t, hypId, series)
      ensures store.ledgers == Appended(Appended(Appended(old(store.ledgers), evidencePath, o.evidence),
                                                 decisionsPath, o.decision), receiptsPath, o.receipt)
    {
      o := Decided(h, n, ts, u, hemi, t, hypId, series);
      DecidedSealed(h, n, ts, u, hemi, t, hypId, series);
      Log(h, store, o);
    }

    /** The three `append_jsonl` calls, each on a new dict holding one record. */
    method Log(h: Hasher, store: Store, o: Outcome)
      requires store.Valid() && AllSealed(h, o)
      modifies store
      ensures store.Valid()
      ensures store.ledgers == Appended(Appended(Appended(old(store.ledgers), evidencePath, o.evidence),
                                                 decisionsPath, o.decision), receiptsPath, o.receipt)
    {
      var evid := new JsonDict(o.evidence);
      store.AppendJsonl(h, evidencePath, evid);
      var dec := new JsonDict(o.decision);
      store.AppendJsonl(h, decisionsPath, dec);
      var rec := new JsonDict(o.receipt);
      store.AppendJsonl(h, receiptsPath, rec);
    }

    /**
     * `decide(hyp, series)`: builds the four records of `Decided` from four
     * clock readings and one uuid, appends the evidence, the decision and the
     * receipt to their ledgers in that order, and returns the test, the
     * evidence and the decision.
     */
    method Decide(h: Hasher, n: Numerics, env: Env, store: Store, hyp: Obj, series: seq<real>)
      returns (tst: Obj, evid: Obj, dec: Obj)
      requires store.Valid() && "id" in hyp.vals && hyp.vals["id"].Str?
      modifies env, store
      ensures store.Valid()
      ensures env.ticks == old(env.ticks) + 4 && env.draws == old(env.draws) + 1
      ensures var o := Decided(h, n, ReadingsFrom(env.clock, old(env.ticks)), env.uuids(old(env.draws)), hemi,
                               old(thresholds), hyp.vals["id"].s, series);
        && tst == o.test && evid == o.evidence && dec == o.decision
        && store.ledgers == Appended(Appended(Appended(old(store.ledgers), evidencePath, o.evidence),
                                              decisionsPath, o.decision), receiptsPath, o.receipt)
    {
      var t := thresholds;
      var ts, u := Draw(env);
      store.StillValid();
      var o := Record(h, n, store, ts, u, t, hyp.vals["id"].s, series);
      tst, evid, dec := o.test, o.evidence, o.decision;
    }
  }
}
