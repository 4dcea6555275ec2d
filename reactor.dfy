/**
 * The recursive reactor: four clamped control rods, the generation moderator,
 * rule-based rod adjustment from telemetry, the SCRAM predicate, the smoothed
 * meta-series the outer engine observes, and the per-cycle telemetry, SCRAM
 * and run loop.
 */
module Reactor {
  import opened Wrappers
  import opened Json
  import opened Series

  function Min(a: real, b: real): real { if a <= b then a else b }
  function Max(a: real, b: real): real { if a >= b then a else b }
  function AbsReal(x: real): real { if x < 0.0 then -x else x }

  /** `rod.insert(x)`: `min(1.0, depth + x)`. */
  function Inserted(d: real, x: real): (r: real)
    ensures r <= 1.0 && (r == 1.0 || r == d + x)
    ensures 0.0 <= d <= 1.0 && x >= 0.0 ==> d <= r <= 1.0
  {
    Min(1.0, d + x)
  }

  /** `rod.withdraw(x)`: `max(0.0, depth - x)`. */
  function Withdrawn(d: real, x: real): (r: real)
    ensures r >= 0.0 && (r == 0.0 || r == d - x)
    ensures 0.0 <= d <= 1.0 && x >= 0.0 ==> 0.0 <= r <= d
  {
    Max(0.0, d - x)
  }

  predicate InBox(d: real) { 0.0 <= d <= 1.0 }

  class ControlRod {
    const name: string
    var depth: real

    constructor (name: string)
      ensures this.name == name && depth == 0.0
    {
      this.name := name;
      depth := 0.0;
    }

    method Insert(amount: real)
      modifies this
      ensures depth == Inserted(old(depth), amount)
    {
      depth := Min(1.0, depth + amount);
    }

    method Withdraw(amount: real)
      modifies this
      ensures depth == Withdrawn(old(depth), amount)
    {
      depth := Max(0.0, depth - amount);
    }
  }

  /** The four rod depths, as `get_state` reports them. */
  datatype Depths = Depths(recursion: real, resource: real, anchor: real, semantic: real)

  predicate DepthsInBox(d: Depths) {
    InBox(d.recursion) && InBox(d.resource) && InBox(d.anchor) && InBox(d.semantic)
  }

  /** Python's `int(x)` on a float: truncation toward zero. */
  function Trunc(x: real): (n: int)
    ensures x >= 0.0 ==> 0 <= n && n as real <= x < n as real + 1.0
    ensures x < 0.0 ==> n <= 0 && n as real - 1.0 < x <= n as real
  {
    if x >= 0.0 then x.Floor else -((-x).Floor)
  }

  /** The damping of generation: 0.4, 0.4 and 0.2 of the recursion, resource and semantic rods. */
  function Damping(d: Depths): real {
    0.4 * d.recursion + 0.4 * d.resource + 0.2 * d.semantic
  }

  /** `moderate_generation(k)` on rod depths `d`. */
  function Moderated(d: Depths, k: int): (n: int)
    ensures n >= 1
    ensures k >= 1 && DepthsInBox(d) ==> n <= k
    ensures k >= 1 && d.recursion == 0.0 && d.resource == 0.0 && d.semantic == 0.0 ==> n == k
  {
    var damp := Damping(d);
    var x := k as real * (1.0 - damp);
    var t := Trunc(x);
    if k >= 1 && DepthsInBox(d) then
      ScaleAtMost(k as real, 1.0 - damp);
      assert t as real <= x <= k as real;
      if t > 1 then t else 1
    else if t > 1 then t else 1
  }

  lemma ScaleAtMost(k: real, f: real)
    requires k >= 0.0 && 0.0 <= f <= 1.0
    ensures 0.0 <= k * f <= k
  {
  }

  /**
   * `auto_adjust` on depths `d` with the current telemetry: the rules are
   * checked one after the other and each that holds moves its rods.
   */
  function AutoAdjusted(d: Depths, temperature: real, pressure: real, criticality: real): Depths {
    var d1 := if temperature > 0.8 then d.(resource := Inserted(d.resource, 0.2)) else d;
    var d2 := if pressure > 0.7 then d1.(recursion := Inserted(d1.recursion, 0.2)) else d1;
    var d3 := if criticality > 1.2 then d2.(recursion := Inserted(d2.recursion, 0.2), semantic := Inserted(d2.semantic, 0.1)) else d2;
    if criticality < 0.8 then d3.(recursion := Withdrawn(d3.recursion, 0.1), resource := Withdrawn(d3.resource, 0.05)) else d3
  }

  /** The anchor rod is never moved, the box is kept, and nothing moves when no rule holds. */
  lemma AutoAdjustKeeps(d: Depths, temperature: real, pressure: real, criticality: real)
    ensures AutoAdjusted(d, temperature, pressure, criticality).anchor == d.anchor
    ensures DepthsInBox(d) ==> DepthsInBox(AutoAdjusted(d, temperature, pressure, criticality))
    ensures temperature <= 0.8 && pressure <= 0.7 && 0.8 <= criticality <= 1.2 ==> AutoAdjusted(d, temperature, pressure, criticality) == d
  {
  }

  /** Each rule moves its rods the way it says, whatever the other rules do. */
  lemma AutoAdjustDirections(d: Depths, temperature: real, pressure: real, criticality: real)
    requires DepthsInBox(d)
    ensures var a := AutoAdjusted(d, temperature, pressure, criticality);
      && (temperature > 0.8 && criticality >= 0.8 ==> a.resource >= d.resource)
      && (criticality > 1.2 ==> a.recursion >= d.recursion && a.semantic >= d.semantic && a.resource >= d.resource)
      && (criticality < 0.8 && pressure <= 0.7 ==> a.recursion <= d.recursion)
      && (criticality < 0.8 && temperature <= 0.8 ==> a.resource <= d.resource)
      && (criticality <= 1.2 ==> a.semantic == d.semantic)
  {
  }

  /** The rods and the telemetry they are adjusted from. */
  class ReactorControl {
    const recursionDamper: ControlRod
    const resourceGovernor: ControlRod
    const realityAnchor: ControlRod
    const semanticFilter: ControlRod
    var criticality: real
    var temperature: real
    var pressure: real

    function Rods(): set<object> {
      {recursionDamper, resourceGovernor, realityAnchor, semanticFilter}
    }

    /** Four distinct rods. */
    predicate Valid() {
      recursionDamper != resourceGovernor && recursionDamper != realityAnchor && recursionDamper != semanticFilter
      && resourceGovernor != realityAnchor && resourceGovernor != semanticFilter && realityAnchor != semanticFilter
    }

    /** `get_state()`: the four depths. */
    function Positions(): Depths
      reads Rods()
    {
      Depths(recursionDamper.depth, resourceGovernor.depth, realityAnchor.depth, semanticFilter.depth)
    }

    constructor ()
      ensures Valid() && fresh(Rods())
      ensures Positions() == Depths(0.0, 0.0, 0.0, 0.0)
      ensures criticality == 0.0 && temperature == 0.0 && pressure == 0.0
    {
      recursionDamper := new ControlRod("recursion_damper");
      resourceGovernor := new ControlRod("resource_governor");
      realityAnchor := new ControlRod("reality_anchor");
      semanticFilter := new ControlRod("semantic_filter");
      criticality, temperature, pressure := 0.0, 0.0, 0.0;
    }

    /** `moderate_generation(k)` */
    function ModerateGeneration(k: int): (n: int)
      reads Rods()
      ensures n == Moderated(Positions(), k)
    {
      Moderated(Positions(), k)
    }

    /**
     * The telemetry updates of one cycle: the measured temperature and
     * pressure are stored, `auto_adjust()` runs on them and on the criticality
     * left by the previous cycle, and then the new criticality is stored.
     */
    method Observe(temperature: real, pressure: real, criticality: real) returns (adjusted: Depths)
      requires Valid()
      modifies this, Rods()
      ensures this.temperature == temperature && this.pressure == pressure && this.criticality == criticality
      ensures adjusted == Positions() && adjusted == AutoAdjusted(old(Positions()), temperature, pressure, old(this.criticality))
    {
      this.temperature, this.pressure := temperature, pressure;
      AutoAdjust();
      adjusted := Positions();
      this.criticality := criticality;
    }

    /** The SCRAM action: every rod but the reality anchor fully inserted. */
    method InsertAll()
      requires Valid()
      modifies Rods()
      ensures Positions() == Scrammed(old(Positions()))
      ensures criticality == old(criticality)
    {
      recursionDamper.depth := 1.0;
      resourceGovernor.depth := 1.0;
      semanticFilter.depth := 1.0;
    }

    /** `auto_adjust()` */
    method AutoAdjust()
      requires Valid()
      modifies Rods()
      ensures Positions() == AutoAdjusted(old(Positions()), temperature, pressure, criticality)
    {
      if temperature > 0.8 {
        resourceGovernor.Insert(0.2);
      }
      if pressure > 0.7 {
        recursionDamper.Insert(0.2);
      }
      if criticality > 1.2 {
        recursionDamper.Insert(0.2);
        semanticFilter.Insert(0.1);
      }
      if criticality < 0.8 {
        recursionDamper.Withdraw(0.1);
        resourceGovernor.Withdraw(0.05);
      }
    }
  }

  /** The SCRAM settings; the defaults are enabled, 1.8, 0.95 and 0.05. */
  datatype Scram = Scram(enabled: bool, criticalityLimit: real, temperatureLimit: real, realityCorrLimit: real)

  const DefaultScram: Scram := Scram(true, 1.8, 0.95, 0.05)

  function GetOr(state: map<string, real>, k: string, default: real): real {
    if k in state then state[k] else default
  }

  /** `should_scram(state)`: never when disabled; otherwise any limit crossed, a missing key reading as calm. */
  function ShouldScram(sc: Scram, state: map<string, real>): (b: bool)
    ensures !sc.enabled ==> !b
    ensures sc.enabled ==> (b <==> (GetOr(state, "criticality", 0.0) > sc.criticalityLimit
                                    || GetOr(state, "temperature", 0.0) > sc.temperatureLimit
                                    || GetOr(state, "reality_corr", 1.0) < sc.realityCorrLimit))
  {
    if !sc.enabled then false
    else
      (GetOr(state, "criticality", 0.0) > sc.criticalityLimit
       || GetOr(state, "temperature", 0.0) > sc.temperatureLimit
       || GetOr(state, "reality_corr", 1.0) < sc.realityCorrLimit)
  }

  /** The default settings on the states of the reactor tests. */
  lemma ScramExamples()
    ensures !ShouldScram(DefaultScram, map["criticality" := 1.0, "temperature" := 0.5, "reality_corr" := 0.8])
    ensures ShouldScram(DefaultScram, map["criticality" := 2.0, "temperature" := 0.5, "reality_corr" := 0.8])
    ensures ShouldScram(DefaultScram, map["criticality" := 1.0, "temperature" := 0.96, "reality_corr" := 0.8])
    ensures ShouldScram(DefaultScram, map["criticality" := 1.0, "temperature" := 0.5, "reality_corr" := 0.02])
    ensures !ShouldScram(DefaultScram, map[])
  {
  }

  // ---------------------------------------------------------------------
  // The meta-series

  /** Python's `s[-n:]`. */
  function Tail<T>(s: seq<T>, n: int): (t: seq<T>)
    ensures n == 0 ==> t == s
    ensures n > 0 ==> |t| == (if n < |s| then n else |s|) && t == s[|s| - |t|..]
  {
    var start := -n;
    if start < 0 then (if |s| + start < 0 then s else s[|s| + start..])
    else if start < |s| then s[start..] else []
  }

  /** `[0.0] * n` */
  function Zeros(n: int): (z: seq<real>)
    ensures |z| == (if n < 0 then 0 else n)
    ensures forall i | 0 <= i < |z| :: z[i] == 0.0
  {
    if n <= 0 then [] else Zeros(n - 1) + [0.0]
  }

  /** `1.0 if r.get("status") == "accepted" else 0.0` for each receipt. */
  function AcceptSignal(receipts: seq<Obj>): (acc: seq<real>)
    ensures |acc| == |receipts|
    ensures forall i | 0 <= i < |acc| :: acc[i] == (if Get(receipts[i], "status") == Some(Str("accepted")) then 1.0 else 0.0)
  {
    seq(|receipts|, i requires 0 <= i < |receipts| => if Get(receipts[i], "status") == Some(Str("accepted")) then 1.0 else 0.0)
  }

  /** Exponential smoothing `s = 0.7 s + 0.3 a` from `s = 0`, one value per sample. */
  function Smoothed(acc: seq<real>): (series: seq<real>)
    ensures |series| == |acc|
  {
    if acc == [] then []
    else
      var p := Smoothed(acc[..|acc| - 1]);
      p + [0.7 * (if p == [] then 0.0 else p[|p| - 1]) + 0.3 * acc[|acc| - 1]]
  }

  /** Smoothing a signal in [0, 1] stays in [0, 1]. */
  lemma {:induction false} SmoothedInBox(acc: seq<real>)
    requires forall i | 0 <= i < |acc| :: InBox(acc[i])
    ensures forall i | 0 <= i < |acc| :: InBox(Smoothed(acc)[i])
  {
    if acc != [] {
      var q := acc[..|acc| - 1];
      SmoothedInBox(q);
      var p := Smoothed(q);
      assert forall i | 0 <= i < |p| :: InBox(Smoothed(acc)[i]) by {
        assert forall i | 0 <= i < |p| :: Smoothed(acc)[i] == p[i];
      }
    }
  }

  /** `_outer_series_from_inner_receipts(window)` given the inner engine's R receipts. */
  function MetaSeries(receipts: seq<Obj>, window: int): seq<real> {
    var acc := AcceptSignal(Tail(receipts, window));
    if acc == [] then Zeros(if window < 4 then window else 4) else Smoothed(acc)
  }

  /** No receipts give four zeros (fewer for a window under 4); otherwise one value per receipt in the window, each in [0, 1]. */
  lemma MetaSeriesShape(receipts: seq<Obj>, window: int)
    ensures var m := MetaSeries(receipts, window);
      && (receipts == [] && window >= 0 ==> m == Zeros(if window < 4 then window else 4))
      && (receipts != [] && window >= 1 ==> |m| == (if window < |receipts| then window else |receipts|))
      && (receipts != [] && window == 0 ==> |m| == |receipts|)
      && forall i | 0 <= i < |m| :: InBox(m[i])
  {
    var acc := AcceptSignal(Tail(receipts, window));
    SmoothedInBox(acc);
  }

  /** The smoothing loop of `_outer_series_from_inner_receipts`. */
  method OuterSeries(receipts: seq<Obj>, window: int) returns (series: seq<real>)
    ensures series == MetaSeries(receipts, window)
  {
    var acc := AcceptSignal(Tail(receipts, window));
    if acc == [] {
      return Zeros(if window < 4 then window else 4);
    }
    series := [];
    var s := 0.0;
    var i := 0;
    while i < |acc|
      invariant 0 <= i <= |acc|
      invariant series == Smoothed(acc[..i])
      invariant s == if i == 0 then 0.0 else series[i - 1]
    {
      assert acc[..i + 1][..i] == acc[..i];
      s := 0.7 * s + 0.3 * acc[i];
      series := series + [s];
      i := i + 1;
    }
    assert acc[..i] == acc;
  }

  // ---------------------------------------------------------------------
  // Telemetry

  /** How many of the records say `decision == "accept"`. */
  function Accepts(decisions: seq<Obj>): (n: nat)
    ensures n <= |decisions|
  {
    if decisions == [] then 0
    else (if Get(decisions[0], "decision") == Some(Str("accept")) then 1 else 0) + Accepts(decisions[1..])
  }

  /** `(outer_accepts + 1) / (inner_accepts + 1)` over the last three R decisions of each engine. */
  function Criticality(innerDecisions: seq<Obj>, outerDecisions: seq<Obj>): (c: real)
    ensures 0.25 <= c <= 4.0
  {
    var i := Accepts(Tail(innerDecisions, 3));
    var o := Accepts(Tail(outerDecisions, 3));
    RatioRange(o + 1, i + 1);
    (o + 1) as real / (i + 1) as real
  }

  /** A ratio of two counts between 1 and 4 lies between 1/4 and 4. */
  lemma RatioRange(a: nat, b: nat)
    requires 1 <= a <= 4 && 1 <= b <= 4
    ensures 0.25 <= a as real / b as real <= 4.0
  {
    if b == 1 {
    } else if b == 2 {
    } else if b == 3 {
    } else {
    }
  }

  function MeanOr(s: seq<real>): real {
    if s == [] then 0.0 else Mean(s)
  }

  /** `1.0 - min(1.0, abs(mu_ext - mu_meta))` */
  function RealityCorr(ext: seq<real>, meta: seq<real>): (r: real)
    ensures 0.0 <= r <= 1.0
    ensures r == 1.0 <==> MeanOr(ext) == MeanOr(meta)
  {
    1.0 - Min(1.0, AbsReal(MeanOr(ext) - MeanOr(meta)))
  }

  /** `min(1.0, elapsed / 0.25)` */
  function Temperature(elapsed: real): (t: real)
    ensures t <= 1.0
    ensures elapsed >= 0.0 ==> 0.0 <= t
  {
    Min(1.0, elapsed / 0.25)
  }

  /** `min(1.0, len(meta_series) / 32.0)` */
  function Pressure(meta: seq<real>): (p: real)
    ensures 0.0 <= p <= 1.0
    ensures p == 1.0 <==> |meta| >= 32
  {
    Min(1.0, |meta| as real / 32.0)
  }

  /** The `state` dict of a cycle. */
  datatype State = State(criticality: real, temperature: real, pressure: real, realityCorr: real)

  function StateMap(st: State): map<string, real> {
    map["criticality" := st.criticality, "temperature" := st.temperature,
        "pressure" := st.pressure, "reality_corr" := st.realityCorr]
  }

  /** What one cycle reports; the inner and outer engine results are not part of this model. */
  datatype CycleResult = CycleResult(status: string, cycle: nat, state: State, rods: Depths)

  /**
   * What one cycle reads from the world and from the two engines: the
   * external batch, the time the cycle took, the inner R receipts ledger after
   * the inner cycle, and the inner and outer R decision ledgers after both
   * cycles.
   */
  datatype Readout = Readout(ext: seq<real>, elapsed: real, innerReceipts: seq<Obj>, innerDecisions: seq<Obj>, outerDecisions: seq<Obj>)

  /** After a SCRAM every rod but the reality anchor is fully inserted. */
  function Scrammed(d: Depths): Depths {
    d.(recursion := 1.0, resource := 1.0, semantic := 1.0)
  }

  /**
   * One cycle on the rods `d`, with the criticality left by the previous
   * cycle: the new temperature and pressure and the old criticality drive the
   * adjustment, then the criticality is recomputed.
   */
  function Step(sc: Scram, d: Depths, lastCriticality: real, r: Readout, n: nat): (CycleResult, Depths) {
    var meta := MetaSeries(r.innerReceipts, 32);
    Finish(sc, AutoAdjusted(d, Temperature(r.elapsed), Pressure(meta), lastCriticality), Gauges(r, meta), n)
  }

  /** The `state` of a cycle, from its readout and the meta-series. */
  function Gauges(r: Readout, meta: seq<real>): State {
    State(Criticality(r.innerDecisions, r.outerDecisions), Temperature(r.elapsed), Pressure(meta), RealityCorr(r.ext, meta))
  }

  /** The end of a cycle: SCRAM or not, on the adjusted rods. */
  function Finish(sc: Scram, adjusted: Depths, st: State, n: nat): (CycleResult, Depths) {
    if ShouldScram(sc, StateMap(st)) then (CycleResult("SCRAM", n, st, Scrammed(adjusted)), Scrammed(adjusted))
    else (CycleResult("OK", n, st, adjusted), adjusted)
  }

  /** A cycle's telemetry lies in its ranges, the rods stay in the box, the anchor is kept, and SCRAM inserts the other three rods. */
  lemma StepProperties(sc: Scram, d: Depths, lastCriticality: real, r: Readout, n: nat)
    requires DepthsInBox(d)
    ensures var (res, d') := Step(sc, d, lastCriticality, r, n);
      && res.rods == d' && res.cycle == n && DepthsInBox(d') && d'.anchor == d.anchor
      && 0.25 <= res.state.criticality <= 4.0
      && 0.0 <= res.state.realityCorr <= 1.0
      && 0.0 <= res.state.pressure <= 1.0
      && (res.status == "SCRAM" <==> ShouldScram(sc, StateMap(res.state)))
      && (res.status == "SCRAM" ==> d'.recursion == 1.0 && d'.resource == 1.0 && d'.semantic == 1.0)
      && (res.status == "SCRAM" || res.status == "OK")
  {
    var meta := MetaSeries(r.innerReceipts, 32);
    AutoAdjustKeeps(d, Temperature(r.elapsed), Pressure(meta), lastCriticality);
  }

  /** Appending the next cycle's result keeps the numbering and the statuses seen so far. */
  lemma ResultsSnoc(results: seq<CycleResult>, res: CycleResult, base: int)
    requires forall j | 0 <= j < |results| :: results[j].cycle == base + j + 1 && results[j].status == "OK"
    requires res.cycle == base + |results| + 1 && (res.status == "OK" || res.status == "SCRAM")
    ensures var rs := results + [res];
      && (forall j | 0 <= j < |rs| :: rs[j].cycle == base + j + 1)
      && (forall j | 0 <= j < |rs| - 1 :: rs[j].status == "OK")
      && (forall j | 0 <= j < |rs| :: rs[j].status == "OK" || rs[j].status == "SCRAM")
      && (res.status != "SCRAM" ==> forall j | 0 <= j < |rs| :: rs[j].cycle == base + j + 1 && rs[j].status == "OK")
  {
  }

  /** One cycle as a function of the rods, the last criticality and the cycle's number. */
  type Cycler = (Depths, real, nat) -> (CycleResult, Depths)

  /** The cycles of the reactor `sc` observing `world`. */
  function CycleOf(sc: Scram, world: nat -> Readout): Cycler {
    (d: Depths, c: real, n: nat) => Step(sc, d, c, world(n), n)
  }

  /**
   * `run(cycles)` carried on from the results `done`, the rods `d` and the
   * criticality `c` left after `count` cycles: the results of the cycles
   * numbered `count + 1` onwards are appended to `done`, stopping right after
   * the first SCRAM, and the rods and the criticality they leave come with them.
   */
  function RunSpec(next: Cycler, done: seq<CycleResult>, d: Depths, c: real, count: nat, cycles: int): (seq<CycleResult>, Depths, real)
    decreases cycles
  {
    if cycles <= 0 then (done, d, c)
    else
      var (res, d') := next(d, c, count + 1);
      if res.status == "SCRAM" then (done + [res], d', res.state.criticality)
      else RunSpec(next, done + [res], d', res.state.criticality, count + 1, cycles - 1)
  }

  /** What `StepProperties` says of one cycle, for every cycle of `next`. */
  ghost predicate Keeps(next: Cycler) {
    forall d: Depths, c: real, n: nat | DepthsInBox(d) ::
      && next(d, c, n).0.rods == next(d, c, n).1 && next(d, c, n).0.cycle == n
      && DepthsInBox(next(d, c, n).1) && next(d, c, n).1.anchor == d.anchor
      && (next(d, c, n).0.status == "OK" || next(d, c, n).0.status == "SCRAM")
  }

  /** The reactor's own cycles keep what `StepProperties` says. */
  lemma CycleOfKeeps(sc: Scram, world: nat -> Readout)
    ensures Keeps(CycleOf(sc, world))
  {
    forall d: Depths, c: real, n: nat | DepthsInBox(d)
      ensures var p := CycleOf(sc, world)(d, c, n);
        && p.0.rods == p.1 && p.0.cycle == n && DepthsInBox(p.1) && p.1.anchor == d.anchor
        && (p.0.status == "OK" || p.0.status == "SCRAM")
    {
      StepProperties(sc, d, c, world(n), n);
    }
  }

  /** A cycle of `CycleOf(sc, world)` is `Step` on that cycle's readout. */
  lemma CycleOfIs(sc: Scram, world: nat -> Readout, d: Depths, c: real, n: nat)
    ensures CycleOf(sc, world)(d, c, n) == Step(sc, d, c, world(n), n)
  {
  }

  /** One more cycle of a run: a SCRAM ends it, an OK result carries it on. */
  lemma RunSpecStep(next: Cycler, done: seq<CycleResult>, d: Depths, c: real, n: nat, k: int, res: CycleResult, d': Depths, c': real, n': nat)
    requires k > 0 && (res, d') == next(d, c, n + 1) && c' == res.state.criticality && n' == n + 1
    ensures res.status == "SCRAM" ==> RunSpec(next, done, d, c, n, k) == (done + [res], d', c')
    ensures res.status != "SCRAM" ==> RunSpec(next, done, d, c, n, k) == RunSpec(next, done + [res], d', c', n', k - 1)
  {
  }

  /**
   * A run keeps the results it carries on from, numbers its own cycles on
   * from `count`, runs at most `cycles` of them, ends early only on a SCRAM,
   * and every cycle of its own before the last is OK; the rods it leaves are
   * the last result's, in the box, with the anchor where it was.
   */
  lemma {:induction false} RunSpecProperties(next: Cycler, done: seq<CycleResult>, d: Depths, c: real, count: nat, cycles: int)
    requires Keeps(next) && DepthsInBox(d)
    ensures var (rs, d', _) := RunSpec(next, done, d, c, count, cycles);
      && |done| <= |rs| <= |done| + (if cycles < 0 then 0 else cycles)
      && rs[..|done|] == done
      && (forall j | |done| <= j < |rs| :: rs[j].cycle == count + (j - |done|) + 1)
      && (forall j | |done| <= j < |rs| - 1 :: rs[j].status == "OK")
      && (forall j | |done| <= j < |rs| :: rs[j].status == "OK" || rs[j].status == "SCRAM")
      && (|rs| < |done| + cycles ==> |done| < |rs| && rs[|rs| - 1].status == "SCRAM")
      && (|done| < |rs| ==> d' == rs[|rs| - 1].rods)
      && DepthsInBox(d') && d'.anchor == d.anchor
    decreases cycles
  {
    if cycles > 0 {
      var (res, d1) := next(d, c, count + 1);
      if res.status != "SCRAM" {
        var done' := done + [res];
        RunSpecProperties(next, done', d1, res.state.criticality, count + 1, cycles - 1);
        var rs := RunSpec(next, done', d1, res.state.criticality, count + 1, cycles - 1).0;
        assert rs[..|done|] == rs[..|done'|][..|done|];
      }
    }
  }

  /** The reactor: its rods, its SCRAM settings, and the world it observes, one readout per cycle. */
  class RecursiveMaat {
    const rods: ReactorControl
    const scram: Scram
    const world: nat -> Readout
    var cycleCount: nat

    constructor (world: nat -> Readout)
      ensures this.world == world && scram == DefaultScram && cycleCount == 0
      ensures rods.Valid() && fresh(rods) && fresh(rods.Rods())
      ensures rods.Positions() == Depths(0.0, 0.0, 0.0, 0.0) && rods.criticality == 0.0
    {
      this.world := world;
      scram := DefaultScram;
      rods := new ReactorControl();
      cycleCount := 0;
    }

    /** `cycle(k_gen)`: the cycle numbered `cycle_count + 1`, reading that cycle's readout. */
    method Cycle(kGen: int) returns (res: CycleResult)
      requires rods.Valid()
      modifies this, rods, rods.Rods()
      ensures cycleCount == old(cycleCount) + 1
      ensures (res, rods.Positions()) == Step(scram, old(rods.Positions()), old(rods.criticality), world(old(cycleCount) + 1), old(cycleCount) + 1)
      ensures rods.criticality == res.state.criticality
      ensures res.cycle == old(cycleCount) + 1 && (res.status == "OK" || res.status == "SCRAM")
    {
      var n := cycleCount + 1;
      var r := world(n);
      var meta := OuterSeries(r.innerReceipts, 32);
      var st := Gauges(r, meta);
      var adjusted := rods.Observe(st.temperature, st.pressure, st.criticality);
      var kEff := rods.ModerateGeneration(kGen);
      if ShouldScram(scram, StateMap(st)) {
        rods.InsertAll();
        res := CycleResult("SCRAM", n, st, Scrammed(adjusted));
      } else {
        res := CycleResult("OK", n, st, adjusted);
      }
      cycleCount := n;
    }

    /** `run(cycles)`: cycles in order, stopping right after the first SCRAM. */
    method Run(cycles: int) returns (results: seq<CycleResult>)
      requires rods.Valid()
      modifies this, rods, rods.Rods()
      ensures (results, rods.Positions(), rods.criticality) == RunSpec(CycleOf(scram, world), [], old(rods.Positions()), old(rods.criticality), old(cycleCount), cycles)
      ensures rods.Valid()
      ensures |results| <= (if cycles < 0 then 0 else cycles)
      ensures cycleCount == old(cycleCount) + |results|
      ensures forall j | 0 <= j < |results| :: results[j].cycle == old(cycleCount) + j + 1
      ensures forall j | 0 <= j < |results| - 1 :: results[j].status == "OK"
      ensures |results| < cycles ==> results != [] && results[|results| - 1].status == "SCRAM"
      ensures forall j | 0 <= j < |results| :: results[j].status == "OK" || results[j].status == "SCRAM"
    {
      ghost var next := CycleOf(scram, world);
      // where the run is, as values: the rods, the criticality, the cycle count and the cycles to go
      ghost var d, c, n, k := rods.Positions(), rods.criticality, cycleCount, cycles;
      ghost var total := RunSpec(next, [], d, c, n, k);
      results := [];
      var i := 0;
      while i < cycles
        invariant 0 <= i && i <= (if cycles < 0 then 0 else cycles) && i == |results|
        invariant cycleCount == old(cycleCount) + i
        invariant forall j | 0 <= j < |results| :: results[j].cycle == old(cycleCount) + j + 1 && results[j].status == "OK"
        invariant d == rods.Positions() && c == rods.criticality && n == cycleCount && k == cycles - i
        invariant RunSpec(next, results, d, c, n, k) == total
        decreases cycles - i
      {
        var res := Cycle(3);
        ghost var d', c', n' := rods.Positions(), rods.criticality, cycleCount;
        CycleOfIs(scram, world, d, c, n + 1);
        RunSpecStep(next, results, d, c, n, k, res, d', c', n');
        ResultsSnoc(results, res, old(cycleCount));
        results := results + [res];
        d, c, n, k := d', c', n', k - 1;
        if res.status == "SCRAM" {
          return;
        }
        i := i + 1;
      }
    }
  }
}
