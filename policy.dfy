/**
 * The learned gating policy: gate thresholds nudged toward a target
 * acceptance band, with a cooldown between updates, corrections driven by two
 * regret scores, and bounded histories.
 */
module Policy {
  import opened Wrappers
  import opened Decimal
  import opened Json
  import Series

  datatype Thresholds = Thresholds(bayes: real, coh: real, mdl: real)

  /** The thresholds a new policy starts from (the R hemisphere's defaults). */
  const StartThresholds: Thresholds := Thresholds(0.80, 7.5, -8.0)

  const DefaultTargetMin: real := 0.20
  const DefaultTargetMax: real := 0.35
  const DefaultLearningRate: real := 0.05
  const DefaultCooldown: int := 10

  const HistoryCap: nat := 100
  const QueueCap: nat := 50
  const ReportWindow: nat := 20
  const RegretTrigger: real := 0.3

  function Min(a: real, b: real): real { if a <= b then a else b }
  function Max(a: real, b: real): real { if a >= b then a else b }

  /** `_loosen_thresholds` with `delta = learning_rate * factor`. */
  function Loosened(t: Thresholds, delta: real): Thresholds {
    Thresholds(Max(0.5, t.bayes - delta), Max(3.0, t.coh - delta * 5.0), Min(-2.0, t.mdl + delta * 10.0))
  }

  /** `_tighten_thresholds` with `delta = learning_rate * factor`. */
  function Tightened(t: Thresholds, delta: real): Thresholds {
    Thresholds(Min(0.98, t.bayes + delta), Min(15.0, t.coh + delta * 5.0), Max(-20.0, t.mdl - delta * 10.0))
  }

  /** The box the clamps keep the thresholds in. */
  predicate InRange(t: Thresholds) {
    0.5 <= t.bayes <= 0.98 && 3.0 <= t.coh <= 15.0 && -20.0 <= t.mdl <= -2.0
  }

  /** Loosening stays in the box and never tightens a gate. */
  lemma LoosenBounds(t: Thresholds, delta: real)
    requires InRange(t) && delta >= 0.0
    ensures var l := Loosened(t, delta);
      InRange(l) && l.bayes <= t.bayes && l.coh <= t.coh && l.mdl >= t.mdl
  {
  }

  /** Tightening stays in the box and never loosens a gate. */
  lemma TightenBounds(t: Thresholds, delta: real)
    requires InRange(t) && delta >= 0.0
    ensures var l := Tightened(t, delta);
      InRange(l) && l.bayes >= t.bayes && l.coh >= t.coh && l.mdl <= t.mdl
  {
  }

  /** Away from the clamps, a tightening step undoes a loosening step of the same size, and the other way round. */
  lemma LoosenTightenInverse(t: Thresholds, delta: real)
    requires InRange(t) && delta >= 0.0
    ensures t.bayes - delta >= 0.5 && t.coh - delta * 5.0 >= 3.0 && t.mdl + delta * 10.0 <= -2.0
      ==> Tightened(Loosened(t, delta), delta) == t
    ensures t.bayes + delta <= 0.98 && t.coh + delta * 5.0 <= 15.0 && t.mdl - delta * 10.0 >= -20.0
      ==> Loosened(Tightened(t, delta), delta) == t
  {
  }

  /** One entry of `history`. */
  datatype Entry = Entry(acceptanceRate: real, regretFalseAccept: real, regretFalseReject: real, thresholds: Thresholds)

  /** The `metrics` argument of `step`: `acceptance_rate`, `recent_decisions`, `recent_evidence`. */
  datatype Metrics = Metrics(acceptanceRate: real, decisions: seq<Obj>, evidence: seq<Obj>)

  /** `deque(maxlen=cap).append(x)`: the last `cap` items of `q + [x]`. */
  function Push<T>(q: seq<T>, x: T, cap: nat): (r: seq<T>)
    ensures |r| == (if |q| + 1 <= cap then |q| + 1 else cap)
    ensures cap > 0 ==> r[|r| - 1] == x
    ensures r == (q + [x])[|q| + 1 - |r|..]
  {
    var q' := q + [x];
    if |q'| <= cap then q' else q'[|q'| - cap..]
  }

  /** One pass of the decision loop of `step`: accepted and rejected ids are queued. */
  function Track(accepted: seq<Value>, rejected: seq<Value>, d: Obj): (seq<Value>, seq<Value>) {
    var hyp := Get(d, "hyp").GetOr(Null);
    if Get(d, "decision") == Some(Str("accept")) then (Push(accepted, hyp, QueueCap), rejected)
    else if Get(d, "decision") == Some(Str("reject")) then (accepted, Push(rejected, hyp, QueueCap))
    else (accepted, rejected)
  }

  function TrackAll(accepted: seq<Value>, rejected: seq<Value>, ds: seq<Obj>): (seq<Value>, seq<Value>)
    decreases |ds|
  {
    if ds == [] then (accepted, rejected)
    else
      var p := TrackAll(accepted, rejected, ds[..|ds| - 1]);
      Track(p.0, p.1, ds[|ds| - 1])
  }

  /** The two regrets: an accepted id whose MDL later worsened, a rejected id whose coherence later came out strong. */
  datatype Kind = FalseAccept | FalseReject

  /**
   * Whether one evidence record counts against a tracked id:
   * `float(evid.get('mdl', {}).get('bits_delta', 0)) > 0` or
   * `float(evid.get('coherence', {}).get('peak_mean', 0)) > 10`.
   */
  function Counts(kind: Kind, evid: Obj, convert: Value -> Result<Float>): Result<bool> {
    var section := if kind == FalseAccept then "mdl" else "coherence";
    var field := if kind == FalseAccept then "bits_delta" else "peak_mean";
    var bound := if kind == FalseAccept then 0.0 else 10.0;
    var m := Get(evid, section).GetOr(Dict(EmptyObj));
    if !m.Dict? then Failure("AttributeError: object has no attribute 'get'")
    else match AsFloat(Get(m.obj, field).GetOr(Int(0)), convert)
      case Failure(e) => Failure(e)
      case Ok(f) => Ok(Greater(f, bound))
  }

  /** The counting loop of the regret functions, over the evidence records in order. */
  function Count(queue: seq<Value>, evidence: seq<Obj>, kind: Kind, convert: Value -> Result<Float>): Result<nat>
    decreases |evidence|
  {
    if evidence == [] then Ok(0)
    else match Count(queue, evidence[..|evidence| - 1], kind, convert)
      case Failure(e) => Failure(e)
      case Ok(c) =>
        var evid := evidence[|evidence| - 1];
        if Get(evid, "hyp").GetOr(Null) !in queue then Ok(c)
        else match Counts(kind, evid, convert)
          case Failure(e) => Failure(e)
          case Ok(b) => Ok(if b then c + 1 else c)
  }

  /** `_compute_false_accept_regret` / `_compute_false_reject_regret` on the queue of that kind. */
  function Regret(queue: seq<Value>, evidence: seq<Obj>, kind: Kind, convert: Value -> Result<Float>): Result<real> {
    if queue == [] || evidence == [] then Ok(0.0)
    else match Count(queue, evidence, kind, convert)
      case Failure(e) => Failure(e)
      case Ok(c) => Ok(c as real / |queue| as real)
  }

  lemma {:induction false} CountAtMost(queue: seq<Value>, evidence: seq<Obj>, kind: Kind, convert: Value -> Result<Float>)
    requires Count(queue, evidence, kind, convert).Ok?
    ensures Count(queue, evidence, kind, convert).value <= |evidence|
    decreases |evidence|
  {
    if evidence != [] {
      CountAtMost(queue, evidence[..|evidence| - 1], kind, convert);
    }
  }

  /** A regret is 0 with nothing tracked or no evidence, and otherwise the number of flagged records about tracked ids, at most |evidence|, over |queue|. */
  lemma RegretRatio(queue: seq<Value>, evidence: seq<Obj>, kind: Kind, convert: Value -> Result<Float>)
    ensures queue == [] || evidence == [] ==> Regret(queue, evidence, kind, convert) == Ok(0.0)
    ensures queue != [] && evidence != [] && Regret(queue, evidence, kind, convert).Ok? ==>
      && Count(queue, evidence, kind, convert).Ok?
      && Count(queue, evidence, kind, convert).value <= |evidence|
      && Regret(queue, evidence, kind, convert).value == Count(queue, evidence, kind, convert).value as real / |queue| as real
  {
    if queue != [] && evidence != [] && Count(queue, evidence, kind, convert).Ok? {
      CountAtMost(queue, evidence, kind, convert);
    }
  }

  /** A regret is never negative. */
  lemma RegretNonNegative(queue: seq<Value>, evidence: seq<Obj>, kind: Kind, convert: Value -> Result<Float>)
    ensures Regret(queue, evidence, kind, convert).Ok? ==> Regret(queue, evidence, kind, convert).value >= 0.0
  {
    RegretRatio(queue, evidence, kind, convert);
    if queue != [] && evidence != [] && Regret(queue, evidence, kind, convert).Ok? {
      var c := Count(queue, evidence, kind, convert).value;
      assert c as real / |queue| as real >= 0.0;
    }
  }

  /** The ratio is not bounded by 1: two bad records about one accepted id give a false-accept regret of 2. */
  lemma RegretCanExceedOne(convert: Value -> Result<Float>)
    ensures var evid := Obj(["hyp", "mdl"], map["hyp" := Str("h"), "mdl" := Dict(Obj(["bits_delta"], map["bits_delta" := Int(3)]))]);
      Regret([Str("h")], [evid, evid], FalseAccept, convert) == Ok(2.0)
  {
    var evid := Obj(["hyp", "mdl"], map["hyp" := Str("h"), "mdl" := Dict(Obj(["bits_delta"], map["bits_delta" := Int(3)]))]);
    var inner := Obj(["bits_delta"], map["bits_delta" := Int(3)]);
    assert Get(evid, "mdl") == Some(Dict(inner));
    assert Get(inner, "bits_delta") == Some(Int(3));
    assert AsFloat(Int(3), convert) == Ok(Finite(3.0));
    assert Counts(FalseAccept, evid, convert) == Ok(true);
    assert Get(evid, "hyp").GetOr(Null) in [Str("h")];
    assert [evid][..0] == [];
    assert Count([Str("h")], [], FalseAccept, convert) == Ok(0);
    assert Count([Str("h")], [evid], FalseAccept, convert) == Ok(1);
    assert [evid, evid][..1] == [evid];
    assert Count([Str("h")], [evid, evid], FalseAccept, convert) == Ok(2);
  }

  /** The parameters fixed at construction. */
  datatype Config = Config(targetMin: real, targetMax: real, learningRate: real, cooldown: int)

  /** The fields `step` changes. */
  datatype State = State(thresholds: Thresholds, history: seq<Entry>, updateCount: nat, cyclesSinceUpdate: nat,
                         accepted: seq<Value>, rejected: seq<Value>)

  const StartState: State := State(StartThresholds, [], 0, 0, [], [])

  /** The band step applied once the cooldown has passed: loosen below the target band, tighten above it; and whether it fired. */
  function BandStep(cfg: Config, t: Thresholds, rate: real): (Thresholds, nat) {
    if rate < cfg.targetMin then (Loosened(t, cfg.learningRate * 1.0), 1)
    else if rate > cfg.targetMax then (Tightened(t, cfg.learningRate * 1.0), 1)
    else (t, 0)
  }

  /** A false-accept regret above 0.3 tightens by half a step. */
  function AcceptFix(cfg: Config, t: Thresholds, rfa: real): Thresholds {
    if rfa > RegretTrigger then Tightened(t, cfg.learningRate * 0.5) else t
  }

  /** A false-reject regret above 0.3 loosens by half a step. */
  function RejectFix(cfg: Config, t: Thresholds, rfr: real): Thresholds {
    if rfr > RegretTrigger then Loosened(t, cfg.learningRate * 0.5) else t
  }

  function Fired(regret: real): nat {
    if regret > RegretTrigger then 1 else 0
  }

  /** The three rules in the order `step` applies them, and how many fired. */
  function Adjusted(cfg: Config, t: Thresholds, rate: real, rfa: real, rfr: real): (Thresholds, nat) {
    var band := BandStep(cfg, t, rate);
    (RejectFix(cfg, AcceptFix(cfg, band.0, rfa), rfr), band.1 + Fired(rfa) + Fired(rfr))
  }

  /** The first part of `step`: the cycle counted and the decisions queued. */
  function Counted(s: State, m: Metrics): State {
    var queues := TrackAll(s.accepted, s.rejected, m.decisions);
    s.(cyclesSinceUpdate := s.cyclesSinceUpdate + 1, accepted := queues.0, rejected := queues.1)
  }

  /** The rest of `step` once both regrets are known: the history entry, the cooldown, the rules. */
  function Finish(cfg: Config, s: State, rate: real, rfa: real, rfr: real): (State, Result<Thresholds>) {
    var s2 := s.(history := Push(s.history, Entry(rate, rfa, rfr, s.thresholds), HistoryCap));
    if s.cyclesSinceUpdate < cfg.cooldown then (s2, Ok(s.thresholds))
    else
      var adj := Adjusted(cfg, s.thresholds, rate, rfa, rfr);
      (s2.(thresholds := adj.0, updateCount := s.updateCount + adj.1,
           cyclesSinceUpdate := if adj.1 > 0 then 0 else s.cyclesSinceUpdate), Ok(adj.0))
  }

  /** `step(metrics)`: the new state and the thresholds returned, or the exception and the state it leaves. */
  function StepSpec(cfg: Config, s: State, m: Metrics, convert: Value -> Result<Float>): (State, Result<Thresholds>) {
    var s1 := Counted(s, m);
    var rfa := Regret(s1.accepted, m.evidence, FalseAccept, convert);
    if rfa.Failure? then (s1, Failure(rfa.error))
    else
      var rfr := Regret(s1.rejected, m.evidence, FalseReject, convert);
      if rfr.Failure? then (s1, Failure(rfr.error))
      else Finish(cfg, s1, m.acceptanceRate, rfa.value, rfr.value)
  }

  /** The invariant: the three deques within their caps and, for a non-negative rate, the thresholds in the box. */
  predicate Good(cfg: Config, s: State) {
    && |s.history| <= HistoryCap && |s.accepted| <= QueueCap && |s.rejected| <= QueueCap
    && (cfg.learningRate >= 0.0 ==> InRange(s.thresholds))
  }

  lemma StartGood(cfg: Config)
    ensures Good(cfg, StartState)
  {
  }

  lemma {:induction false} TrackAllBounded(accepted: seq<Value>, rejected: seq<Value>, ds: seq<Obj>)
    requires |accepted| <= QueueCap && |rejected| <= QueueCap
    ensures |TrackAll(accepted, rejected, ds).0| <= QueueCap && |TrackAll(accepted, rejected, ds).1| <= QueueCap
    decreases |ds|
  {
    if ds != [] {
      TrackAllBounded(accepted, rejected, ds[..|ds| - 1]);
    }
  }

  lemma BandStepInRange(cfg: Config, t: Thresholds, rate: real)
    requires InRange(t) && cfg.learningRate >= 0.0
    ensures InRange(BandStep(cfg, t, rate).0)
  {
    LoosenBounds(t, cfg.learningRate * 1.0);
    TightenBounds(t, cfg.learningRate * 1.0);
  }

  lemma FixesInRange(cfg: Config, t: Thresholds, rfa: real, rfr: real)
    requires InRange(t) && cfg.learningRate >= 0.0
    ensures InRange(AcceptFix(cfg, t, rfa)) && InRange(RejectFix(cfg, t, rfr))
  {
    TightenBounds(t, cfg.learningRate * 0.5);
    LoosenBounds(t, cfg.learningRate * 0.5);
  }

  lemma AdjustedInRange(cfg: Config, t: Thresholds, rate: real, rfa: real, rfr: real)
    requires InRange(t) && cfg.learningRate >= 0.0
    ensures InRange(Adjusted(cfg, t, rate, rfa, rfr).0)
  {
    var band := BandStep(cfg, t, rate);
    BandStepInRange(cfg, t, rate);
    FixesInRange(cfg, band.0, rfa, rfr);
    FixesInRange(cfg, AcceptFix(cfg, band.0, rfa), rfa, rfr);
  }

  lemma FinishKeeps(cfg: Config, s: State, rate: real, rfa: real, rfr: real)
    requires Good(cfg, s)
    ensures Good(cfg, Finish(cfg, s, rate, rfa, rfr).0)
  {
    if cfg.learningRate >= 0.0 {
      AdjustedInRange(cfg, s.thresholds, rate, rfa, rfr);
    }
  }

  /** Every step, whatever it returns, keeps the invariant. */
  lemma StepKeeps(cfg: Config, s: State, m: Metrics, convert: Value -> Result<Float>)
    requires Good(cfg, s)
    ensures Good(cfg, StepSpec(cfg, s, m, convert).0)
  {
    TrackAllBounded(s.accepted, s.rejected, m.decisions);
    var s1 := Counted(s, m);
    assert Good(cfg, s1);
    var rfa := Regret(s1.accepted, m.evidence, FalseAccept, convert);
    var rfr := Regret(s1.rejected, m.evidence, FalseReject, convert);
    if rfa.Ok? && rfr.Ok? {
      FinishKeeps(cfg, s1, m.acceptanceRate, rfa.value, rfr.value);
    }
  }

  /**
   * Every step counts the cycle and queues the decisions; one that fails on a
   * regret changes nothing else; once past the regrets it appends one history
   * entry holding the thresholds as they were.
   */
  lemma StepRecords(cfg: Config, s: State, m: Metrics, convert: Value -> Result<Float>)
    ensures var r := StepSpec(cfg, s, m, convert);
      && r.0.accepted == TrackAll(s.accepted, s.rejected, m.decisions).0
      && r.0.rejected == TrackAll(s.accepted, s.rejected, m.decisions).1
      && (r.1.Failure? ==> r.0 == s.(cyclesSinceUpdate := s.cyclesSinceUpdate + 1, accepted := r.0.accepted, rejected := r.0.rejected))
      && (r.1.Ok? ==>
            && |r.0.history| == (if |s.history| < HistoryCap then |s.history| + 1 else HistoryCap)
            && r.0.history[|r.0.history| - 1].thresholds == s.thresholds
            && r.0.history[|r.0.history| - 1].acceptanceRate == m.acceptanceRate)
  {
  }

  /** Before the cooldown has passed, a step returns the old thresholds and changes them not, nor the update count. */
  lemma CooldownHolds(cfg: Config, s: State, m: Metrics, convert: Value -> Result<Float>)
    requires s.cyclesSinceUpdate + 1 < cfg.cooldown
    ensures var r := StepSpec(cfg, s, m, convert);
      && (r.1.Ok? ==> r.1 == Ok(s.thresholds))
      && r.0.thresholds == s.thresholds && r.0.updateCount == s.updateCount
      && r.0.cyclesSinceUpdate == s.cyclesSinceUpdate + 1
  {
  }

  /** After the cooldown the step returns the adjusted thresholds, counts each rule that fired, and resets the cycle counter exactly when one did. */
  lemma CooldownPassed(cfg: Config, s: State, m: Metrics, convert: Value -> Result<Float>)
    requires s.cyclesSinceUpdate + 1 >= cfg.cooldown
    requires StepSpec(cfg, s, m, convert).1.Ok?
    ensures var r := StepSpec(cfg, s, m, convert);
      var q := Counted(s, m);
      var rfa := Regret(q.accepted, m.evidence, FalseAccept, convert).value;
      var rfr := Regret(q.rejected, m.evidence, FalseReject, convert).value;
      var adj := Adjusted(cfg, s.thresholds, m.acceptanceRate, rfa, rfr);
      && r.1 == Ok(r.0.thresholds) && r.0.thresholds == adj.0
      && r.0.updateCount == s.updateCount + adj.1
      && (r.0.cyclesSinceUpdate == 0 <==> adj.1 > 0)
  {
  }

  /**
   * The rules: below the band loosens one step, otherwise above it tightens
   * one step; each regret above 0.3 then adds a half step; each rule that
   * fires counts one update.
   */
  lemma AdjustRules(cfg: Config, t: Thresholds, rate: real, rfa: real, rfr: real)
    ensures var lr := cfg.learningRate;
      var r := Adjusted(cfg, t, rate, rfa, rfr);
      && r.1 == (if rate < cfg.targetMin || rate > cfg.targetMax then 1 else 0)
                + (if rfa > RegretTrigger then 1 else 0) + (if rfr > RegretTrigger then 1 else 0)
      && (rfa <= RegretTrigger && rfr <= RegretTrigger ==>
            && (rate < cfg.targetMin ==> r.0 == Loosened(t, lr))
            && (cfg.targetMin <= rate && rate > cfg.targetMax ==> r.0 == Tightened(t, lr))
            && (cfg.targetMin <= rate <= cfg.targetMax ==> r.0 == t))
      && (rfa > RegretTrigger && rfr <= RegretTrigger ==> r.0 == Tightened(BandStep(cfg, t, rate).0, lr * 0.5))
      && (rfa > RegretTrigger && rfr > RegretTrigger ==>
            r.0 == Loosened(Tightened(BandStep(cfg, t, rate).0, lr * 0.5), lr * 0.5))
  {
  }

  /** What `get_report` returns. */
  datatype Report = Report(current: Thresholds, updateCount: nat, cyclesSinceUpdate: nat, band: (real, real),
                           recent: seq<Entry>, avgAcceptance: real, avgFalseAccept: real, avgFalseReject: real)

  /** `xs[-n:]` for `n > 0`. */
  function LastN<T>(xs: seq<T>, n: nat): (r: seq<T>)
    ensures |r| == (if |xs| <= n then |xs| else n)
    ensures r == xs[|xs| - |r|..]
  {
    if |xs| <= n then xs else xs[|xs| - n..]
  }

  function AverageOf(xs: seq<real>): real {
    if xs == [] then 0.0 else Series.Mean(xs)
  }

  function Rates(es: seq<Entry>): (r: seq<real>)
    ensures |r| == |es| && forall i | 0 <= i < |es| :: r[i] == es[i].acceptanceRate
  {
    seq(|es|, i requires 0 <= i < |es| => es[i].acceptanceRate)
  }

  function FalseAccepts(es: seq<Entry>): (r: seq<real>)
    ensures |r| == |es| && forall i | 0 <= i < |es| :: r[i] == es[i].regretFalseAccept
  {
    seq(|es|, i requires 0 <= i < |es| => es[i].regretFalseAccept)
  }

  function FalseRejects(es: seq<Entry>): (r: seq<real>)
    ensures |r| == |es| && forall i | 0 <= i < |es| :: r[i] == es[i].regretFalseReject
  {
    seq(|es|, i requires 0 <= i < |es| => es[i].regretFalseReject)
  }

  function ReportOf(cfg: Config, s: State): Report {
    var recent := LastN(s.history, ReportWindow);
    Report(s.thresholds, s.updateCount, s.cyclesSinceUpdate, (cfg.targetMin, cfg.targetMax), recent,
      AverageOf(Rates(recent)), AverageOf(FalseAccepts(recent)), AverageOf(FalseRejects(recent)))
  }

  /** The report reads at most the last 20 entries, all 20 when there are that many, and its averages are 0.0 on an empty history. */
  lemma ReportWindowed(cfg: Config, s: State)
    ensures var r := ReportOf(cfg, s);
      && |r.recent| == (if |s.history| <= ReportWindow then |s.history| else ReportWindow)
      && r.recent == s.history[|s.history| - |r.recent|..]
      && (s.history == [] ==> r.avgAcceptance == 0.0 && r.avgFalseAccept == 0.0 && r.avgFalseReject == 0.0)
  {
  }

  /** When the recorded acceptance rates lie in [0, 1], so does the reported average. */
  lemma ReportAverageBounded(cfg: Config, s: State)
    requires forall i | 0 <= i < |s.history| :: 0.0 <= s.history[i].acceptanceRate <= 1.0
    ensures 0.0 <= ReportOf(cfg, s).avgAcceptance <= 1.0
  {
    var recent := LastN(s.history, ReportWindow);
    var rates := Rates(recent);
    if rates != [] {
      forall i | 0 <= i < |rates|
        ensures 0.0 <= rates[i] <= 1.0
      {
        assert recent[i] == s.history[|s.history| - |recent| + i];
      }
      Series.MeanBounds(rates, 0.0, 1.0);
    }
  }

  class LearnedGatesPolicy {
    const targetMin: real
    const targetMax: real
    const learningRate: real
    const cooldown: int
    var thresholds: Thresholds
    var history: seq<Entry>
    var updateCount: nat
    var cyclesSinceUpdate: nat
    var accepted: seq<Value>
    var rejected: seq<Value>

    function Cfg(): Config {
      Config(targetMin, targetMax, learningRate, cooldown)
    }

    function Model(): State
      reads this
    {
      State(thresholds, history, updateCount, cyclesSinceUpdate, accepted, rejected)
    }

    constructor(targetMin: real, targetMax: real, learningRate: real, cooldown: int)
      ensures Cfg() == Config(targetMin, targetMax, learningRate, cooldown) && Model() == StartState
    {
      this.targetMin, this.targetMax, this.learningRate, this.cooldown := targetMin, targetMax, learningRate, cooldown;
      thresholds := StartThresholds;
      history, updateCount, cyclesSinceUpdate, accepted, rejected := [], 0, 0, [], [];
    }

    /** `step(metrics)`. */
    method Step(m: Metrics, convert: Value -> Result<Float>) returns (r: Result<Thresholds>)
      modifies this
      ensures (Model(), r) == StepSpec(Cfg(), old(Model()), m, convert)
    {
      cyclesSinceUpdate := cyclesSinceUpdate + 1;
      TrackDecisions(m.decisions);
      assert Model() == Counted(old(Model()), m);
      var rfa := ComputeRegret(FalseAccept, m.evidence, convert);
      if rfa.Failure? {
        return Failure(rfa.error);
      }
      var rfr := ComputeRegret(FalseReject, m.evidence, convert);
      if rfr.Failure? {
        return Failure(rfr.error);
      }
      r := FinishStep(m.acceptanceRate, rfa.value, rfr.value);
    }

    /** What `step` does once both regrets are known. */
    method FinishStep(rate: real, rfa: real, rfr: real) returns (r: Result<Thresholds>)
      modifies this
      ensures (Model(), r) == Finish(Cfg(), old(Model()), rate, rfa, rfr)
    {
      history := Push(history, Entry(rate, rfa, rfr, thresholds), HistoryCap);
      if cyclesSinceUpdate < cooldown {
        return Ok(thresholds);
      }
      Adjust(rate, rfa, rfr);
      return Ok(thresholds);
    }

    /** The three rules of `step` in order, each counting an update and resetting the cycle counter when it fires. */
    method Adjust(rate: real, rfa: real, rfr: real)
      modifies this
      ensures var adj := Adjusted(Cfg(), old(thresholds), rate, rfa, rfr);
        && thresholds == adj.0 && updateCount == old(updateCount) + adj.1
        && cyclesSinceUpdate == (if adj.1 > 0 then 0 else old(cyclesSinceUpdate))
      ensures history == old(history) && accepted == old(accepted) && rejected == old(rejected)
    {
      ApplyBand(rate);
      ApplyAcceptFix(rfa);
      ApplyRejectFix(rfr);
    }

    /** The band rule. */
    method ApplyBand(rate: real)
      modifies this
      ensures var band := BandStep(Cfg(), old(thresholds), rate);
        && thresholds == band.0 && updateCount == old(updateCount) + band.1
        && cyclesSinceUpdate == (if band.1 > 0 then 0 else old(cyclesSinceUpdate))
      ensures history == old(history) && accepted == old(accepted) && rejected == old(rejected)
    {
      if rate < targetMin {
        LoosenThresholds(1.0);
        updateCount, cyclesSinceUpdate := updateCount + 1, 0;
      } else if rate > targetMax {
        TightenThresholds(1.0);
        updateCount, cyclesSinceUpdate := updateCount + 1, 0;
      }
    }

    /** The false-accept correction. */
    method ApplyAcceptFix(rfa: real)
      modifies this
      ensures thresholds == AcceptFix(Cfg(), old(thresholds), rfa) && updateCount == old(updateCount) + Fired(rfa)
      ensures cyclesSinceUpdate == (if Fired(rfa) > 0 then 0 else old(cyclesSinceUpdate))
      ensures history == old(history) && accepted == old(accepted) && rejected == old(rejected)
    {
      if rfa > RegretTrigger {
        TightenThresholds(0.5);
        updateCount, cyclesSinceUpdate := updateCount + 1, 0;
      }
    }

    /** The false-reject correction. */
    method ApplyRejectFix(rfr: real)
      modifies this
      ensures thresholds == RejectFix(Cfg(), old(thresholds), rfr) && updateCount == old(updateCount) + Fired(rfr)
      ensures cyclesSinceUpdate == (if Fired(rfr) > 0 then 0 else old(cyclesSinceUpdate))
      ensures history == old(history) && accepted == old(accepted) && rejected == old(rejected)
    {
      if rfr > RegretTrigger {
        LoosenThresholds(0.5);
        updateCount, cyclesSinceUpdate := updateCount + 1, 0;
      }
    }

    /** The decision loop of `step`. */
    method TrackDecisions(ds: seq<Obj>)
      modifies this
      ensures (accepted, rejected) == TrackAll(old(accepted), old(rejected), ds)
      ensures thresholds == old(thresholds) && history == old(history)
      ensures updateCount == old(updateCount) && cyclesSinceUpdate == old(cyclesSinceUpdate)
    {
      for i := 0 to |ds|
        invariant (accepted, rejected) == TrackAll(old(accepted), old(rejected), ds[..i])
        invariant thresholds == old(thresholds) && history == old(history)
        invariant updateCount == old(updateCount) && cyclesSinceUpdate == old(cyclesSinceUpdate)
      {
        assert ds[..i + 1][..i] == ds[..i];
        var d := ds[i];
        if Get(d, "decision") == Some(Str("accept")) {
          accepted := Push(accepted, Get(d, "hyp").GetOr(Null), QueueCap);
        } else if Get(d, "decision") == Some(Str("reject")) {
          rejected := Push(rejected, Get(d, "hyp").GetOr(Null), QueueCap);
        }
      }
      assert ds[..|ds|] == ds;
    }

    /** `_compute_false_accept_regret` and `_compute_false_reject_regret`. */
    method ComputeRegret(kind: Kind, evidence: seq<Obj>, convert: Value -> Result<Float>) returns (r: Result<real>)
      ensures r == Regret(if kind == FalseAccept then accepted else rejected, evidence, kind, convert)
    {
      var queue := if kind == FalseAccept then accepted else rejected;
      if queue == [] || evidence == [] {
        return Ok(0.0);
      }
      var count := 0;
      for i := 0 to |evidence|
        invariant Count(queue, evidence[..i], kind, convert) == Ok(count)
      {
        assert evidence[..i + 1][..i] == evidence[..i];
        var evid := evidence[i];
        if Get(evid, "hyp").GetOr(Null) in queue {
          var b := Counts(kind, evid, convert);
          if b.Failure? {
            CountStops(queue, evidence, kind, convert, i + 1);
            return Failure(b.error);
          }
          if b.value {
            count := count + 1;
          }
        }
      }
      assert evidence[..|evidence|] == evidence;
      return Ok(count as real / |queue| as real);
    }

    /** `_loosen_thresholds(factor)`. */
    method LoosenThresholds(factor: real)
      modifies this
      ensures thresholds == Loosened(old(thresholds), learningRate * factor)
      ensures history == old(history) && accepted == old(accepted) && rejected == old(rejected)
      ensures updateCount == old(updateCount) && cyclesSinceUpdate == old(cyclesSinceUpdate)
    {
      var delta := learningRate * factor;
      thresholds := Thresholds(Max(0.5, thresholds.bayes - delta), Max(3.0, thresholds.coh - delta * 5.0),
                               Min(-2.0, thresholds.mdl + delta * 10.0));
    }

    /** `_tighten_thresholds(factor)`. */
    method TightenThresholds(factor: real)
      modifies this
      ensures thresholds == Tightened(old(thresholds), learningRate * factor)
      ensures history == old(history) && accepted == old(accepted) && rejected == old(rejected)
      ensures updateCount == old(updateCount) && cyclesSinceUpdate == old(cyclesSinceUpdate)
    {
      var delta := learningRate * factor;
      thresholds := Thresholds(Min(0.98, thresholds.bayes + delta), Min(15.0, thresholds.coh + delta * 5.0),
                               Max(-20.0, thresholds.mdl - delta * 10.0));
    }

    /** `get_report()`. */
    function GetReport(): Report
      reads this
    {
      ReportOf(Cfg(), Model())
    }
  }

  /** Once a record fails, the rest of the evidence is never read. */
  lemma {:induction false} CountStops(queue: seq<Value>, evidence: seq<Obj>, kind: Kind, convert: Value -> Result<Float>, n: nat)
    requires n <= |evidence| && Count(queue, evidence[..n], kind, convert).Failure?
    ensures Count(queue, evidence, kind, convert) == Count(queue, evidence[..n], kind, convert)
    decreases |evidence| - n
  {
    if n < |evidence| {
      assert evidence[..n + 1][..n] == evidence[..n];
      CountStops(queue, evidence, kind, convert, n + 1);
    } else {
      assert evidence[..n] == evidence;
    }
  }
}
