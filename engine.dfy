/**
 * The bicameral engine: each cycle records one observation, has the
 * generator propose hypotheses from it for the exploratory hemisphere R, and
 * passes a hypothesis on to the conservative hemisphere L (the "callosum")
 * only when R accepts it. Also the per-hemisphere decision statistics and
 * the engine factory with its default thresholds and ledger paths.
 */
module Engine {
  import opened Wrappers
  import opened Json
  import opened Decimal
  import opened Ledger
  import opened Records
  import opened Runtime
  import opened Gates
  import opened Generator

  // ---------------------------------------------------------------------
  // The observation

  /** `{"x": series}`, the fields of the observation a cycle records. */
  function SeriesFields(series: seq<real>): (f: Obj)
    ensures WFObj(f)
  {
    var xs := seq(|series|, i requires 0 <= i < |series| => Num(Finite(series[i])));
    assert WF(List(xs));
    Obj(["x"], map["x" := List(xs)])
  }

  /** `add_ukh(AGL_Observation(src, {"x": series}))`, given the clock reading and the uuid it draws. */
  function ObservationRecord(h: Hasher, ts: string, u: UuidHex, src: string, series: seq<real>): (r: Obj)
    ensures WFObj(r) && Sealed(h, r)
  {
    ObservationWF(ts, u, src, SeriesFields(series), None);
    StampSeals(h, Observation(ts, u, src, SeriesFields(series), None));
    Stamp(h, Observation(ts, u, src, SeriesFields(series), None))
  }

  /** The recorded observation carries its fresh `obs_` id, its source and the series under "x". */
  lemma ObservationRecordFields(h: Hasher, ts: string, u: UuidHex, src: string, series: seq<real>)
    ensures var r := ObservationRecord(h, ts, u, src, series);
      && Stamped(r, "AGL/Observation", ts)
      && Get(r, "id") == Some(Str(GenId("obs", u))) && Get(r, "src") == Some(Str(src))
      && Get(r, "fields") == Some(Dict(SeriesFields(series)))
  {
    var o := Observation(ts, u, src, SeriesFields(series), None);
    ObservationWF(ts, u, src, SeriesFields(series), None);
    ObservationFields(ts, u, src, SeriesFields(series), None);
    StampKeeps(h, o, "spec");
    StampKeeps(h, o, "schema");
    StampKeeps(h, o, "ts");
    StampKeeps(h, o, "id");
    StampKeeps(h, o, "src");
    StampKeeps(h, o, "fields");
  }

  /** `obs_obj["id"]` is the observation's fresh id. */
  lemma ObservationId(h: Hasher, ts: string, u: UuidHex, src: string, series: seq<real>)
    ensures var r := ObservationRecord(h, ts, u, src, series);
      IdKey in r.vals && r.vals[IdKey] == Str(GenId(ObsPrefix, u))
  {
    ObservationRecordFields(h, ts, u, src, series);
  }

  // ---------------------------------------------------------------------
  // The callosum rule

  /** One entry of `results`: the hypothesis id and claim, R's decision, and L's decision or "n/a". */
  datatype Row = Row(hyp: Value, claim: Value, r: Value, l: Value)

  /** What `cycle` returns: the observation's id, the source and one row per hypothesis. */
  datatype CycleResult = CycleResult(obs: string, src: string, results: seq<Row>)

  /** The hemisphere the generator writes hypotheses for, and the prefix of observation ids. */
  const Explorer: string := "R"
  const ObsPrefix: string := "obs"

  const IdKey: string := "id"
  const ClaimKey: string := "claim"
  const HypKey: string := "hyp"
  const DecisionKey: string := "decision"
  const Accepted: Value := Str("accept")
  const NotApplicable: Value := Str("n/a")

  /** `d[k]` on a record that carries `k`; the records read here always do. */
  function Field(o: Obj, k: string): Value {
    if k in o.vals then o.vals[k] else Null
  }

  /** `dec["decision"]`, the verdict a decision record states. */
  function DecisionOf(d: Obj): Value {
    Field(d, DecisionKey)
  }

  /** A hypothesis a slot can decide and a row can name: it has a textual id and a claim. */
  predicate Carries(hyp: Obj) {
    IdKey in hyp.vals && hyp.vals[IdKey].Str? && ClaimKey in hyp.vals
  }

  /** `hyp["id"]` as text. */
  function IdOf(hyp: Obj): string
    requires Carries(hyp)
  {
    hyp.vals[IdKey].s
  }

  predicate AllCarry(hyps: seq<Obj>) {
    forall i | 0 <= i < |hyps| :: Carries(hyps[i])
  }

  /**
   * The verdict a slot with thresholds `t` reaches on `series`. The
   * hypothesis plays no part in it: every hypothesis of a cycle gets the
   * same verdict from the same hemisphere.
   */
  function GateVerdict(n: Numerics, series: seq<real>, t: Thresholds): Decision {
    GateDecision(DefaultUpdate(series).postMean, n.peakMean(series), n.mdlBits(series), t)
  }

  /** The row for `hyp` when R reaches `vR`: L's verdict `vL` only if R accepted, otherwise "n/a". */
  function RowFor(hyp: Obj, vR: Decision, vL: Decision): Row {
    Row(Field(hyp, IdKey), Field(hyp, ClaimKey), Str(DecisionName(vR)),
        if vR == Accept then Str(DecisionName(vL)) else NotApplicable)
  }

  /** The rows of `results`, one per hypothesis, in order. */
  function Rows(hyps: seq<Obj>, vR: Decision, vL: Decision): (rows: seq<Row>) {
    seq(|hyps|, i requires 0 <= i < |hyps| => RowFor(hyps[i], vR, vL))
  }

  /** Clock readings and uuids one hypothesis costs: four readings and one uuid per slot consulted. */
  function TicksPer(vR: Decision): nat { if vR == Accept then 8 else 4 }
  function DrawsPer(vR: Decision): nat { if vR == Accept then 2 else 1 }

  /** `k` added up `i` times. */
  function Times(i: nat, k: nat): nat {
    if i == 0 then 0 else Times(i - 1, k) + k
  }

  /** A slot as `decide` uses it: its hemisphere, its thresholds and its three ledgers. */
  datatype Side = Side(hemi: string, evidence: string, decisions: string, receipts: string)

  /** A slot as its `decide` uses it. */
  function SideOf(slot: Slot): Side {
    Side(slot.hemi, slot.evidencePath, slot.decisionsPath, slot.receiptsPath)
  }

  /** The ledgers after `decide` appends the evidence, the decision and the receipt, in that order. */
  function Logged(ls: map<string, seq<Obj>>, s: Side, o: Outcome): map<string, seq<Obj>> {
    Appended(Appended(Appended(ls, s.evidence, o.evidence), s.decisions, o.decision), s.receipts, o.receipt)
  }

  /** What one hypothesis leaves in the ledgers: R's records, then L's if L was consulted. */
  datatype Turn = Turn(r: Outcome, l: Option<Outcome>)

  function Turned(ls: map<string, seq<Obj>>, r: Side, l: Side, t: Turn): map<string, seq<Obj>> {
    var afterR := Logged(ls, r, t.r);
    if t.l.Some? then Logged(afterR, l, t.l.value) else afterR
  }

  /** The ledgers after the turns, in order. */
  function Replayed(ls: map<string, seq<Obj>>, r: Side, l: Side, turns: seq<Turn>): map<string, seq<Obj>>
    decreases |turns|
  {
    if turns == [] then ls
    else Turned(Replayed(ls, r, l, turns[..|turns| - 1]), r, l, turns[|turns| - 1])
  }

  /** The records a slot built for hypothesis `hyp` state the verdict `v` and name the hypothesis by its id. */
  predicate States(o: Outcome, hyp: Obj, v: Decision) {
    DecisionOf(o.decision) == Str(DecisionName(v)) && Field(o.decision, HypKey) == Field(hyp, IdKey)
  }

  /** The turn of `hyp`: R's records state `vR`; L's are there, stating `vL`, exactly when R accepted. */
  predicate Fits(t: Turn, hyp: Obj, vR: Decision, vL: Decision) {
    && States(t.r, hyp, vR)
    && (t.l.Some? <==> vR == Accept)
    && (t.l.Some? ==> States(t.l.value, hyp, vL))
  }

  predicate AllFit(turns: seq<Turn>, hyps: seq<Obj>, vR: Decision, vL: Decision) {
    |turns| == |hyps| && forall i | 0 <= i < |hyps| :: Fits(turns[i], hyps[i], vR, vL)
  }

  /** Judging one more hypothesis adds its row at the end. */
  lemma RowsStep(hyps: seq<Obj>, i: nat, vR: Decision, vL: Decision)
    requires i < |hyps|
    ensures Rows(hyps[..i + 1], vR, vL) == Rows(hyps[..i], vR, vL) + [RowFor(hyps[i], vR, vL)]
  {
  }

  /** A turn that fits the next hypothesis extends a run of fitting turns. */
  lemma FitStep(turns: seq<Turn>, hyps: seq<Obj>, i: nat, t: Turn, vR: Decision, vL: Decision)
    requires i < |hyps| && AllFit(turns, hyps[..i], vR, vL) && Fits(t, hyps[i], vR, vL)
    ensures AllFit(turns + [t], hyps[..i + 1], vR, vL)
  {
  }

  /** Replaying one more turn applies it to the ledgers the earlier turns left. */
  lemma ReplayedStep(ls: map<string, seq<Obj>>, r: Side, l: Side, turns: seq<Turn>, t: Turn)
    ensures Replayed(ls, r, l, turns + [t]) == Turned(Replayed(ls, r, l, turns), r, l, t)
  {
    assert (turns + [t])[..|turns|] == turns;
  }

  /** The decision string is "accept" exactly for the verdict Accept. */
  lemma AcceptedIff(v: Decision)
    ensures Str(DecisionName(v)) == Accepted <==> v == Accept
  {
    DecisionNameInjective(v, Accept);
  }

  /** `slot.decide(hyp, series)`, returning the decision record and, as ghost, all four records it appended. */
  method Consult(slot: Slot, h: Hasher, n: Numerics, env: Env, store: Store, hyp: Obj, series: seq<real>)
    returns (d: Obj, ghost o: Outcome)
    requires store.Valid() && Carries(hyp)
    modifies env, store
    ensures store.Valid()
    ensures d == o.decision && States(o, hyp, GateVerdict(n, series, old(slot.thresholds)))
    ensures store.ledgers == Logged(old(store.ledgers), SideOf(slot), o)
    ensures env.ticks == old(env.ticks) + 4 && env.draws == old(env.draws) + 1
  {
    assert Field(hyp, IdKey) == Str(IdOf(hyp));
    var _, _, dd := slot.Decide(h, n, env, store, hyp, series);
    d := dd;
    o := Decided(h, n, ReadingsFrom(env.clock, old(env.ticks)), env.uuids(old(env.draws)), slot.hemi, old(slot.thresholds),
                 IdOf(hyp), series);
    DecidedStates(h, n, ReadingsFrom(env.clock, old(env.ticks)), env.uuids(old(env.draws)), slot.hemi, old(slot.thresholds),
                  IdOf(hyp), series);
  }

  /** Whatever the clock and the uuid, the records `decide` builds state the gate verdict and name the hypothesis. */
  lemma DecidedStates(h: Hasher, n: Numerics, ts: Readings, u: UuidHex, hemi: string, t: Thresholds, hyp: string,
                      series: seq<real>)
    ensures var o := Decided(h, n, ts, u, hemi, t, hyp, series);
      DecisionOf(o.decision) == Str(DecisionName(GateVerdict(n, series, t))) && Field(o.decision, HypKey) == Str(hyp)
  {
    DecidedVerdict(h, n, ts, u, hemi, t, hyp, series);
    DecidedLinks(h, n, ts, u, hemi, t, hyp, series);
  }

  // ---------------------------------------------------------------------
  // The generator

  /** The generator an engine is given: the deterministic one, an adapter, or the hybrid. */
  datatype Source = Programmatic | Llm(adapter: LlmAdapter) | Hybrid(hybrid: HybridGenerator)

  /** The adapter object a generator advances, if it has one. */
  function AdapterObj(g: Source): LlmAdapter? {
    match g
    case Programmatic => null
    case Llm(a) => a
    case Hybrid(hg) => hg.adapter
  }

  /** The state of the generator's adapter, if it has one. */
  function GeneratorState(g: Source): Option<AdapterState>
    reads AdapterObj(g)
  {
    if AdapterObj(g) == null then None else Some(AdapterObj(g).State())
  }

  /** The claims `generator.generate(obs_ids, series, "R")` ends with, and the adapter afterwards. */
  function GeneratorStep(g: Source, a: Option<AdapterState>, n: Numerics, series: seq<real>): (seq<string>, Option<AdapterState>) {
    match g
    case Programmatic => (ProgrammaticClaims(n, series), a)
    case Llm(_) => if a.Some? then var s := LlmStep(a.value, series); (s.0, Some(s.1)) else ([], a)
    case Hybrid(_) => HybridStep(n, a, true, series)
  }

  /** Every hypothesis the generator emits has a textual id and a claim, so a slot can decide it. */
  lemma HypsCarry(h: Hasher, clock: nat -> string, t0: nat, uuids: nat -> UuidHex, d0: nat,
                  claims: seq<string>, hemi: string, obsIds: seq<string>)
    ensures AllCarry(HypRecords(h, clock, t0, uuids, d0, claims, hemi, obsIds))
  {
    var hyps := HypRecords(h, clock, t0, uuids, d0, claims, hemi, obsIds);
    forall i | 0 <= i < |hyps|
      ensures Carries(hyps[i])
    {
      HypRecordsCarry(h, clock, t0, uuids, d0, claims, hemi, obsIds, i);
    }
  }

  /** `append_jsonl(path, obj)` on a record that already carries its `ukh`: the record goes in unchanged. */
  method AppendSealed(h: Hasher, store: Store, path: string, o: Obj)
    requires store.Valid() && WFObj(o) && Sealed(h, o)
    modifies store
    ensures store.Valid()
    ensures store.ledgers == Appended(old(store.ledgers), path, o)
  {
    var d := new JsonDict(o);
    store.AppendJsonl(h, path, d);
  }

  // ---------------------------------------------------------------------
  // MAAT

  /** The engine: its name, its two hemispheres, its observation ledger and its generator. */
  class Maat {
    const name: string
    const hemiR: Slot
    const hemiL: Slot
    const observationsPath: string
    const generator: Source

    constructor (name: string, hemiR: Slot, hemiL: Slot, observationsPath: string, generator: Source)
      ensures this.name == name && this.hemiR == hemiR && this.hemiL == hemiL
      ensures this.observationsPath == observationsPath && this.generator == generator
    {
      this.name := name;
      this.hemiR := hemiR;
      this.hemiL := hemiL;
      this.observationsPath := observationsPath;
      this.generator := generator;
    }

    /** `generate_hypotheses(obs_ids, series)`: the generator's hypotheses for hemisphere "R". */
    method GenerateHypotheses(h: Hasher, n: Numerics, env: Env, obsIds: seq<string>, series: seq<real>)
      returns (hyps: seq<Obj>)
      modifies env, AdapterObj(generator)
      ensures var g := GeneratorStep(generator, old(GeneratorState(generator)), n, series);
        && hyps == HypRecords(h, env.clock, old(env.ticks), env.uuids, old(env.draws), g.0, Explorer, obsIds)
        && GeneratorState(generator) == g.1
      ensures env.ticks == old(env.ticks) + |hyps| && env.draws == old(env.draws) + |hyps|
    {
      match generator
      case Programmatic =>
        hyps := ProgrammaticGenerate(h, n, env, obsIds, series, Explorer);
      case Llm(a) =>
        hyps := a.Generate(h, env, obsIds, series, Explorer);
      case Hybrid(hg) =>
        hyps := hg.Generate(h, n, env, obsIds, series, Explorer, true);
    }

    /** The first step of `cycle`: build the observation, stamp it and append it to the observation ledger. */
    method Observe(h: Hasher, env: Env, store: Store, series: seq<real>, src: string) returns (obs: Obj)
      requires store.Valid()
      modifies env, store
      ensures store.Valid()
      ensures obs == ObservationRecord(h, env.clock(old(env.ticks)), env.uuids(old(env.draws)), src, series)
      ensures store.ledgers == Appended(old(store.ledgers), observationsPath, obs)
      ensures env.ticks == old(env.ticks) + 1 && env.draws == old(env.draws) + 1
      ensures GeneratorState(generator) == old(GeneratorState(generator))
    {
      ghost var a: object? := AdapterObj(generator);
      assert allocated(a) && a != env && a != store;
      var ts := env.NowIso();
      var u := env.Uuid4();
      store.StillValid();
      obs := ObservationRecord(h, ts, u, src, series);
      AppendSealed(h, store, observationsPath, obs);
    }

    /**
     * One turn of the loop of `cycle`: R decides the hypothesis, then the
     * callosum passes it on to L if R accepted it.
     */
    method JudgeOne(h: Hasher, n: Numerics, env: Env, store: Store, hyp: Obj, series: seq<real>)
      returns (row: Row, ghost turn: Turn)
      requires store.Valid() && Carries(hyp)
      modifies env, store
      ensures store.Valid()
      ensures row == RowFor(hyp, GateVerdict(n, series, hemiR.thresholds), GateVerdict(n, series, hemiL.thresholds))
      ensures Fits(turn, hyp, GateVerdict(n, series, hemiR.thresholds), GateVerdict(n, series, hemiL.thresholds))
      ensures store.ledgers == Turned(old(store.ledgers), SideOf(hemiR), SideOf(hemiL), turn)
      ensures env.ticks == old(env.ticks) + TicksPer(GateVerdict(n, series, hemiR.thresholds))
      ensures env.draws == old(env.draws) + DrawsPer(GateVerdict(n, series, hemiR.thresholds))
    {
      var decR, oR := Consult(hemiR, h, n, env, store, hyp, series);
      row, turn := Callosum(h, n, env, store, hyp, series, decR, oR);
    }

    /**
     * The branch on R's decision: "accept" sends the hypothesis to L and the
     * row carries both decisions; anything else leaves L out and the row
     * says "n/a" for it.
     */
    method Callosum(h: Hasher, n: Numerics, env: Env, store: Store, hyp: Obj, series: seq<real>,
                    decR: Obj, ghost oR: Outcome)
      returns (row: Row, ghost turn: Turn)
      requires store.Valid() && Carries(hyp)
      requires decR == oR.decision && States(oR, hyp, GateVerdict(n, series, hemiR.thresholds))
      modifies env, store
      ensures store.Valid()
      ensures row == RowFor(hyp, GateVerdict(n, series, hemiR.thresholds), GateVerdict(n, series, hemiL.thresholds))
      ensures turn.r == oR && Fits(turn, hyp, GateVerdict(n, series, hemiR.thresholds), GateVerdict(n, series, hemiL.thresholds))
      ensures store.ledgers == if turn.l.Some? then Logged(old(store.ledgers), SideOf(hemiL), turn.l.value) else old(store.ledgers)
      ensures env.ticks == old(env.ticks) + TicksPer(GateVerdict(n, series, hemiR.thresholds)) - 4
      ensures env.draws == old(env.draws) + DrawsPer(GateVerdict(n, series, hemiR.thresholds)) - 1
    {
      AcceptedIff(GateVerdict(n, series, hemiR.thresholds));
      if DecisionOf(decR) == Accepted {
        var decL, oL := Consult(hemiL, h, n, env, store, hyp, series);
        row := Row(Field(hyp, IdKey), Field(hyp, ClaimKey), DecisionOf(decR), DecisionOf(decL));
        turn := Turn(oR, Some(oL));
      } else {
        row := Row(Field(hyp, IdKey), Field(hyp, ClaimKey), DecisionOf(decR), NotApplicable);
        turn := Turn(oR, None);
      }
    }

    /** The loop `for hyp in hyps` of `cycle`: one row per hypothesis, in order. */
    method Judge(h: Hasher, n: Numerics, env: Env, store: Store, hyps: seq<Obj>, series: seq<real>)
      returns (rows: seq<Row>, ghost turns: seq<Turn>)
      requires store.Valid() && AllCarry(hyps)
      modifies env, store
      ensures store.Valid()
      ensures rows == Rows(hyps, GateVerdict(n, series, hemiR.thresholds), GateVerdict(n, series, hemiL.thresholds))
      ensures AllFit(turns, hyps, GateVerdict(n, series, hemiR.thresholds), GateVerdict(n, series, hemiL.thresholds))
      ensures store.ledgers == Replayed(old(store.ledgers), SideOf(hemiR), SideOf(hemiL), turns)
      ensures env.ticks == old(env.ticks) + Times(|hyps|, TicksPer(GateVerdict(n, series, hemiR.thresholds)))
      ensures env.draws == old(env.draws) + Times(|hyps|, DrawsPer(GateVerdict(n, series, hemiR.thresholds)))
    {
      ghost var vR, vL := GateVerdict(n, series, hemiR.thresholds), GateVerdict(n, series, hemiL.thresholds);
      ghost var tk, dk := TicksPer(vR), DrawsPer(vR);
      rows, turns := [], [];
      var i := 0;
      while i < |hyps|
        invariant 0 <= i <= |hyps|
        invariant store.Valid()
        invariant rows == Rows(hyps[..i], vR, vL)
        invariant AllFit(turns, hyps[..i], vR, vL)
        invariant store.ledgers == Replayed(old(store.ledgers), SideOf(hemiR), SideOf(hemiL), turns)
        invariant env.ticks == old(env.ticks) + Times(i, tk)
        invariant env.draws == old(env.draws) + Times(i, dk)
      {
        rows, turns := JudgeNext(h, n, env, store, hyps, series, i, rows, turns, old(store.ledgers));
        i := i + 1;
      }
      assert hyps[..i] == hyps;
    }

    /** One iteration of the loop: the hypothesis at `i` is judged and its row and turn appended. */
    method JudgeNext(h: Hasher, n: Numerics, env: Env, store: Store, hyps: seq<Obj>, series: seq<real>, i: nat,
                     rows: seq<Row>, ghost turns: seq<Turn>, ghost ls: map<string, seq<Obj>>)
      returns (rows': seq<Row>, ghost turns': seq<Turn>)
      requires i < |hyps| && store.Valid() && AllCarry(hyps)
      requires rows == Rows(hyps[..i], GateVerdict(n, series, hemiR.thresholds), GateVerdict(n, series, hemiL.thresholds))
      requires AllFit(turns, hyps[..i], GateVerdict(n, series, hemiR.thresholds), GateVerdict(n, series, hemiL.thresholds))
      requires store.ledgers == Replayed(ls, SideOf(hemiR), SideOf(hemiL), turns)
      modifies env, store
      ensures store.Valid()
      ensures rows' == Rows(hyps[..i + 1], GateVerdict(n, series, hemiR.thresholds), GateVerdict(n, series, hemiL.thresholds))
      ensures AllFit(turns', hyps[..i + 1], GateVerdict(n, series, hemiR.thresholds), GateVerdict(n, series, hemiL.thresholds))
      ensures store.ledgers == Replayed(ls, SideOf(hemiR), SideOf(hemiL), turns')
      ensures env.ticks == old(env.ticks) + TicksPer(GateVerdict(n, series, hemiR.thresholds))
      ensures env.draws == old(env.draws) + DrawsPer(GateVerdict(n, series, hemiR.thresholds))
    {
      var row, turn := JudgeOne(h, n, env, store, hyps[i], series);
      RowsStep(hyps, i, GateVerdict(n, series, hemiR.thresholds), GateVerdict(n, series, hemiL.thresholds));
      FitStep(turns, hyps, i, turn, GateVerdict(n, series, hemiR.thresholds), GateVerdict(n, series, hemiL.thresholds));
      ReplayedStep(ls, SideOf(hemiR), SideOf(hemiL), turns, turn);
      rows', turns' := rows + [row], turns + [turn];
    }

    /**
     * `cycle(series, src)`: record the observation, generate hypotheses from
     * it for R, and judge each of them; the result names the observation and
     * has one row per hypothesis.
     */
    method Cycle(h: Hasher, n: Numerics, env: Env, store: Store, series: seq<real>, src: string)
      returns (result: CycleResult, ghost obs: Obj, ghost hyps: seq<Obj>, ghost turns: seq<Turn>)
      requires store.Valid()
      modifies env, store, AdapterObj(generator)
      ensures store.Valid()
      ensures obs == ObservationRecord(h, env.clock(old(env.ticks)), env.uuids(old(env.draws)), src, series)
      ensures hyps == HypRecords(h, env.clock, old(env.ticks) + 1, env.uuids, old(env.draws) + 1,
                                 GeneratorStep(generator, old(GeneratorState(generator)), n, series).0, Explorer,
                                 [GenId(ObsPrefix, env.uuids(old(env.draws)))])
      ensures result == CycleResult(GenId(ObsPrefix, env.uuids(old(env.draws))), src,
                                    Rows(hyps, GateVerdict(n, series, hemiR.thresholds), GateVerdict(n, series, hemiL.thresholds)))
      ensures AllFit(turns, hyps, GateVerdict(n, series, hemiR.thresholds), GateVerdict(n, series, hemiL.thresholds))
      ensures store.ledgers == Replayed(Appended(old(store.ledgers), observationsPath, obs), SideOf(hemiR), SideOf(hemiL), turns)
      ensures env.ticks == old(env.ticks) + 1 + |hyps| + Times(|hyps|, TicksPer(GateVerdict(n, series, hemiR.thresholds)))
      ensures env.draws == old(env.draws) + 1 + |hyps| + Times(|hyps|, DrawsPer(GateVerdict(n, series, hemiR.thresholds)))
    {
      ghost var gs := GeneratorState(generator);
      var o := Observe(h, env, store, series, src);
      obs := o;
      ObservationId(h, env.clock(old(env.ticks)), env.uuids(old(env.draws)), src, series);
      var obsId := o.vals[IdKey].s;
      var rows;
      rows, hyps, turns := Propose(h, n, env, store, obsId, series, gs);
      result := CycleResult(obsId, src, rows);
    }

    /** The rest of `cycle` once the observation is recorded: generate the hypotheses from it and judge each of them. */
    method Propose(h: Hasher, n: Numerics, env: Env, store: Store, obsId: string, series: seq<real>,
                   ghost gs: Option<AdapterState>)
      returns (rows: seq<Row>, ghost hyps: seq<Obj>, ghost turns: seq<Turn>)
      requires store.Valid() && gs == GeneratorState(generator)
      modifies env, store, AdapterObj(generator)
      ensures store.Valid()
      ensures hyps == HypRecords(h, env.clock, old(env.ticks), env.uuids, old(env.draws),
                                 GeneratorStep(generator, gs, n, series).0, Explorer, [obsId])
      ensures rows == Rows(hyps, GateVerdict(n, series, hemiR.thresholds), GateVerdict(n, series, hemiL.thresholds))
      ensures AllFit(turns, hyps, GateVerdict(n, series, hemiR.thresholds), GateVerdict(n, series, hemiL.thresholds))
      ensures store.ledgers == Replayed(old(store.ledgers), SideOf(hemiR), SideOf(hemiL), turns)
      ensures env.ticks == old(env.ticks) + |hyps| + Times(|hyps|, TicksPer(GateVerdict(n, series, hemiR.thresholds)))
      ensures env.draws == old(env.draws) + |hyps| + Times(|hyps|, DrawsPer(GateVerdict(n, series, hemiR.thresholds)))
    {
      var hs := GenerateHypotheses(h, n, env, [obsId], series);
      hyps := hs;
      HypsCarry(h, env.clock, old(env.ticks), env.uuids, old(env.draws),
                GeneratorStep(generator, gs, n, series).0, Explorer, [obsId]);
      rows, turns := Judge(h, n, env, store, hs, series);
    }

    /** `get_stats()`: the tallies of the two decision ledgers, as read back from their files. */
    method GetStats(store: Store) returns (stats: EngineStats)
      requires store.Valid()
      ensures stats == EngineStats(HemiStatsOf(Canonicals(RecordsOf(store.ledgers, hemiR.decisionsPath))),
                                   HemiStatsOf(Canonicals(RecordsOf(store.ledgers, hemiL.decisionsPath))))
    {
      var rd := store.ReadJsonl(hemiR.decisionsPath);
      var ld := store.ReadJsonl(hemiL.decisionsPath);
      stats := EngineStats(HemiStatsOf(rd.value), HemiStatsOf(ld.value));
    }
  }

  // ---------------------------------------------------------------------
  // What a cycle leaves in the decision ledgers

  /** The three ledgers of a slot. */
  function Paths(s: Side): set<string> {
    {s.evidence, s.decisions, s.receipts}
  }

  /** The six ledgers of the two hemispheres are six different files. */
  predicate Apart(r: Side, l: Side) {
    && r.evidence != r.decisions && r.decisions != r.receipts && r.evidence != r.receipts
    && l.evidence != l.decisions && l.decisions != l.receipts && l.evidence != l.receipts
    && Paths(r) !! Paths(l)
  }

  /** ... and the observation ledger is a seventh. */
  predicate Separate(obsPath: string, r: Side, l: Side) {
    Apart(r, l) && obsPath !in Paths(r) && obsPath !in Paths(l)
  }

  /** R's decision record of each turn, in order. */
  function RDecisions(turns: seq<Turn>): (ds: seq<Obj>)
    ensures |ds| == |turns|
  {
    seq(|turns|, i requires 0 <= i < |turns| => turns[i].r.decision)
  }

  /** L's decision records, from the turns that reached L, in order. */
  function LDecisions(turns: seq<Turn>): seq<Obj>
    decreases |turns|
  {
    if turns == [] then []
    else
      var t := turns[|turns| - 1];
      LDecisions(turns[..|turns| - 1]) + (if t.l.Some? then [t.l.value.decision] else [])
  }

  /** `decide` on side `s` adds its decision record to that side's decision ledger and touches no ledger of the other side. */
  lemma LoggedRecords(ls: map<string, seq<Obj>>, s: Side, o: Outcome, p: string)
    requires s.decisions != s.evidence && s.decisions != s.receipts
    ensures p == s.decisions ==> RecordsOf(Logged(ls, s, o), p) == RecordsOf(ls, p) + [o.decision]
    ensures p != s.evidence && p != s.decisions && p != s.receipts ==> RecordsOf(Logged(ls, s, o), p) == RecordsOf(ls, p)
  {
    var a := Appended(ls, s.evidence, o.evidence);
    var b := Appended(a, s.decisions, o.decision);
    AppendedRecords(ls, s.evidence, o.evidence, p);
    AppendedRecords(a, s.decisions, o.decision, p);
    AppendedRecords(b, s.receipts, o.receipt, p);
  }

  /** One turn adds R's decision record to R's decision ledger, and L's, if L was consulted, to L's. */
  lemma TurnedDecisions(ls: map<string, seq<Obj>>, r: Side, l: Side, t: Turn)
    requires Apart(r, l)
    ensures RecordsOf(Turned(ls, r, l, t), r.decisions) == RecordsOf(ls, r.decisions) + [t.r.decision]
    ensures RecordsOf(Turned(ls, r, l, t), l.decisions)
            == RecordsOf(ls, l.decisions) + (if t.l.Some? then [t.l.value.decision] else [])
  {
    var afterR := Logged(ls, r, t.r);
    LoggedRecords(ls, r, t.r, r.decisions);
    LoggedRecords(ls, r, t.r, l.decisions);
    if t.l.Some? {
      LoggedRecords(afterR, l, t.l.value, r.decisions);
      LoggedRecords(afterR, l, t.l.value, l.decisions);
    } else {
      assert RecordsOf(ls, l.decisions) + [] == RecordsOf(ls, l.decisions);
    }
  }

  /** Replaying turns adds R's decision of each turn to R's decision ledger and L's, where there is one, to L's. */
  lemma {:induction false} ReplayedDecisions(ls: map<string, seq<Obj>>, r: Side, l: Side, turns: seq<Turn>)
    requires Apart(r, l)
    ensures RecordsOf(Replayed(ls, r, l, turns), r.decisions) == RecordsOf(ls, r.decisions) + RDecisions(turns)
    ensures RecordsOf(Replayed(ls, r, l, turns), l.decisions) == RecordsOf(ls, l.decisions) + LDecisions(turns)
    decreases |turns|
  {
    if turns == [] {
      assert RecordsOf(ls, r.decisions) + [] == RecordsOf(ls, r.decisions);
      assert RecordsOf(ls, l.decisions) + [] == RecordsOf(ls, l.decisions);
    } else {
      var init, t := turns[..|turns| - 1], turns[|turns| - 1];
      ReplayedDecisions(ls, r, l, init);
      TurnedDecisions(Replayed(ls, r, l, init), r, l, t);
      RDecisionsSnoc(turns);
      SeqAssoc(RecordsOf(ls, r.decisions), RDecisions(init), [t.r.decision]);
      SeqAssoc(RecordsOf(ls, l.decisions), LDecisions(init), if t.l.Some? then [t.l.value.decision] else []);
    }
  }

  lemma RDecisionsSnoc(turns: seq<Turn>)
    requires turns != []
    ensures RDecisions(turns) == RDecisions(turns[..|turns| - 1]) + [turns[|turns| - 1].r.decision]
  {
    var k := |turns| - 1;
    assert forall i | 0 <= i < k :: RDecisions(turns)[i] == RDecisions(turns[..k])[i];
  }

  lemma SeqAssoc<T>(a: seq<T>, b: seq<T>, c: seq<T>)
    ensures a + b + c == a + (b + c)
  {
  }

  /** Whatever a cycle leaves behind, R adds one decision per hypothesis, and L adds one exactly when R accepts. */
  lemma CycleDecisions(ls: map<string, seq<Obj>>, obsPath: string, obs: Obj, r: Side, l: Side, turns: seq<Turn>,
                       hyps: seq<Obj>, vR: Decision, vL: Decision)
    requires Separate(obsPath, r, l) && AllFit(turns, hyps, vR, vL)
    ensures var after := Replayed(Appended(ls, obsPath, obs), r, l, turns);
      && RecordsOf(after, r.decisions) == RecordsOf(ls, r.decisions) + RDecisions(turns)
      && RecordsOf(after, l.decisions) == RecordsOf(ls, l.decisions) + LDecisions(turns)
      && |RDecisions(turns)| == |hyps|
      && (forall i | 0 <= i < |hyps| :: DecisionOf(RDecisions(turns)[i]) == Str(DecisionName(vR)))
      && |LDecisions(turns)| == (if vR == Accept then |hyps| else 0)
      && (forall i | 0 <= i < |LDecisions(turns)| :: DecisionOf(LDecisions(turns)[i]) == Str(DecisionName(vL)))
  {
    var ls' := Appended(ls, obsPath, obs);
    AppendedRecords(ls, obsPath, obs, r.decisions);
    AppendedRecords(ls, obsPath, obs, l.decisions);
    ReplayedDecisions(ls', r, l, turns);
    LDecisionsFit(turns, hyps, vR, vL);
  }

  /** L's decisions come from the turns R accepted, and each states L's verdict. */
  lemma {:induction false} LDecisionsFit(turns: seq<Turn>, hyps: seq<Obj>, vR: Decision, vL: Decision)
    requires AllFit(turns, hyps, vR, vL)
    ensures |LDecisions(turns)| == (if vR == Accept then |turns| else 0)
    ensures forall i | 0 <= i < |LDecisions(turns)| :: DecisionOf(LDecisions(turns)[i]) == Str(DecisionName(vL))
    decreases |turns|
  {
    if turns != [] {
      var k := |turns| - 1;
      assert AllFit(turns[..k], hyps[..k], vR, vL) by {
        forall i | 0 <= i < k ensures Fits(turns[..k][i], hyps[..k][i], vR, vL) {
          assert Fits(turns[i], hyps[i], vR, vL);
        }
      }
      LDecisionsFit(turns[..k], hyps[..k], vR, vL);
      assert Fits(turns[k], hyps[k], vR, vL);
    }
  }

  // ---------------------------------------------------------------------
  // get_stats

  /** The tallies of one decision ledger. */
  datatype HemiStats = HemiStats(total: nat, accept: nat, reject: nat, defer: nat, acceptRate: real)

  /** What `get_stats` returns: the tallies of R and of L. */
  datatype EngineStats = EngineStats(r: HemiStats, l: HemiStats)

  /** `d.get(k)` on a record read back from a ledger; a missing key gives None. */
  function GetOf(v: Value, k: string): Value {
    if v.Dict? && k in v.obj.vals then v.obj.vals[k] else Null
  }

  /** `sum(1 for d in ds if d.get("decision") == name)` */
  function CountVerdict(ds: seq<Value>, name: string): (c: nat)
    ensures c <= |ds|
    decreases |ds|
  {
    if ds == [] then 0
    else CountVerdict(ds[..|ds| - 1], name) + (if GetOf(ds[|ds| - 1], DecisionKey) == Str(name) then 1 else 0)
  }

  /** One ledger's tallies: its length, the three verdict counts, and the accept rate (0.0 for an empty ledger). */
  function HemiStatsOf(ds: seq<Value>): (st: HemiStats)
    ensures st.total == |ds| && st.accept + st.reject + st.defer <= st.total
    ensures 0.0 <= st.acceptRate <= 1.0 && RateOf(st.acceptRate, st.accept, st.total)
  {
    CountsBounded(ds);
    var a := CountVerdict(ds, DecisionName(Accept));
    HemiStats(|ds|, a, CountVerdict(ds, DecisionName(Reject)), CountVerdict(ds, DecisionName(Defer)), Rate(a, |ds|))
  }

  /** `q` is the share `a / total` of `total`: `q * total == a` (for an empty ledger, `a` is 0). */
  predicate RateOf(q: real, a: nat, total: nat) {
    q * total as real == a as real
  }

  /** `accepts / total if total else 0.0` */
  function Rate(a: nat, total: nat): (q: real)
    requires a <= total
    ensures 0.0 <= q <= 1.0 && RateOf(q, a, total)
  {
    if total == 0 then 0.0
    else
      var q := a as real / total as real;
      assert q * total as real == a as real;
      q
  }

  /** A record states at most one verdict, so the three counts together never exceed the number of records. */
  lemma {:induction false} CountsBounded(ds: seq<Value>)
    ensures CountVerdict(ds, DecisionName(Accept)) + CountVerdict(ds, DecisionName(Reject))
            + CountVerdict(ds, DecisionName(Defer)) <= |ds|
    decreases |ds|
  {
    if ds != [] {
      CountsBounded(ds[..|ds| - 1]);
      DecisionNameInjective(Accept, Reject);
      DecisionNameInjective(Accept, Defer);
      DecisionNameInjective(Reject, Defer);
    }
  }

  /** How many of the records state `name` under "decision". */
  function CountStating(recs: seq<Obj>, name: string): (c: nat)
    ensures c <= |recs|
    decreases |recs|
  {
    if recs == [] then 0
    else CountStating(recs[..|recs| - 1], name) + (if DecisionOf(recs[|recs| - 1]) == Str(name) then 1 else 0)
  }

  /** A record whose "decision", if any, is not a float or a foreign object: canonical form leaves it as it is. */
  predicate PlainDecision(r: Obj) {
    DecisionKey in r.vals ==> !r.vals[DecisionKey].Num? && !r.vals[DecisionKey].Other?
  }

  /** Counting on the ledger read back is counting on the records appended. */
  lemma {:induction false} CountReadBack(recs: seq<Obj>, name: string)
    requires forall i | 0 <= i < |recs| :: PlainDecision(recs[i])
    ensures CountVerdict(Canonicals(recs), name) == CountStating(recs, name)
    decreases |recs|
  {
    if recs != [] {
      var k := |recs| - 1;
      CanonicalsPrefix(recs, k);
      CountReadBack(recs[..k], name);
      CanonDecision(recs[k], name);
    }
  }

  lemma CanonicalsPrefix(recs: seq<Obj>, k: nat)
    requires k < |recs|
    ensures Canonicals(recs)[..k] == Canonicals(recs[..k]) && Canonicals(recs)[k] == Dict(CanonDict(recs[k]))
  {
  }

  /** Canonical form keeps a plain "decision" as it is. */
  lemma CanonDecision(r: Obj, name: string)
    requires PlainDecision(r)
    ensures GetOf(Dict(CanonDict(r)), DecisionKey) == Str(name) <==> DecisionOf(r) == Str(name)
  {
    if DecisionKey in r.vals {
      assert CanonDict(r).vals[DecisionKey] == Canon(r.vals[DecisionKey]);
    }
  }

  /** Counts add up over a concatenation. */
  lemma {:induction false} CountConcat(a: seq<Obj>, b: seq<Obj>, name: string)
    ensures CountStating(a + b, name) == CountStating(a, name) + CountStating(b, name)
    decreases |b|
  {
    if b == [] {
      assert a + b == a;
    } else {
      var k := |b| - 1;
      CountConcat(a, b[..k], name);
      assert (a + b)[..|a + b| - 1] == a + b[..k];
    }
  }

  /** Records that all state `v` count fully for `v` and not at all for any other verdict. */
  lemma {:induction false} CountUniform(recs: seq<Obj>, v: Decision, w: Decision)
    requires forall i | 0 <= i < |recs| :: DecisionOf(recs[i]) == Str(DecisionName(v))
    ensures CountStating(recs, DecisionName(w)) == if w == v then |recs| else 0
    decreases |recs|
  {
    if recs != [] {
      CountUniform(recs[..|recs| - 1], v, w);
      DecisionNameInjective(v, w);
    }
  }

  /**
   * The tallies after a cycle: R's count of each verdict grows by the number
   * of hypotheses for R's verdict and not at all otherwise; L's grows only
   * when R accepted, and then for L's verdict.
   */
  lemma CycleTallies(ls: map<string, seq<Obj>>, obsPath: string, obs: Obj, r: Side, l: Side, turns: seq<Turn>,
                     hyps: seq<Obj>, vR: Decision, vL: Decision, w: Decision)
    requires Separate(obsPath, r, l) && AllFit(turns, hyps, vR, vL)
    ensures var after := Replayed(Appended(ls, obsPath, obs), r, l, turns);
      && CountStating(RecordsOf(after, r.decisions), DecisionName(w))
         == CountStating(RecordsOf(ls, r.decisions), DecisionName(w)) + (if w == vR then |hyps| else 0)
      && CountStating(RecordsOf(after, l.decisions), DecisionName(w))
         == CountStating(RecordsOf(ls, l.decisions), DecisionName(w)) + (if vR == Accept && w == vL then |hyps| else 0)
  {
    CycleDecisions(ls, obsPath, obs, r, l, turns, hyps, vR, vL);
    CountConcat(RecordsOf(ls, r.decisions), RDecisions(turns), DecisionName(w));
    CountConcat(RecordsOf(ls, l.decisions), LDecisions(turns), DecisionName(w));
    CountUniform(RDecisions(turns), vR, w);
    CountUniform(LDecisions(turns), vL, w);
  }

  // ---------------------------------------------------------------------
  // create_maat_engine

  /** The default thresholds: R explores, L is strict. */
  const DefaultR: Thresholds := Thresholds(0.80, 7.5, -8.0)
  const DefaultL: Thresholds := Thresholds(0.95, 8.5, -16.0)

  /** `outdir / f"{name}_{kind}.jsonl"` */
  function LedgerPath(outdir: string, name: string, kind: string): string {
    outdir + "/" + name + "_" + kind + ".jsonl"
  }

  /** The sides `create_maat_engine` gives its slots. */
  function DefaultSide(outdir: string, name: string, hemi: string): Side {
    Side(hemi, LedgerPath(outdir, name, hemi + "_evidence"), LedgerPath(outdir, name, hemi + "_decisions"),
         LedgerPath(outdir, name, hemi + "_receipts"))
  }

  /**
   * `create_maat_engine(name, outdir, seed, R_thresholds, L_thresholds,
   * generator)`: the two slots with the given thresholds or the defaults, and
   * the seven ledgers under `outdir`, named after the engine.
   */
  method CreateMaatEngine(name: string, outdir: string, rT: Option<Thresholds>, lT: Option<Thresholds>,
                          generator: Option<Source>) returns (m: Maat)
    ensures fresh(m) && fresh(m.hemiR) && fresh(m.hemiL)
    ensures m.name == name && m.observationsPath == LedgerPath(outdir, name, "observations")
    ensures m.generator == if generator.Some? then generator.value else Programmatic
    ensures m.hemiR.name == "R" && SideOf(m.hemiR) == DefaultSide(outdir, name, "R")
    ensures m.hemiL.name == "L" && SideOf(m.hemiL) == DefaultSide(outdir, name, "L")
    ensures m.hemiR.thresholds == if rT.Some? then rT.value else DefaultR
    ensures m.hemiL.thresholds == if lT.Some? then lT.value else DefaultL
  {
    var tR := if rT.Some? then rT.value else DefaultR;
    var tL := if lT.Some? then lT.value else DefaultL;
    var sR, sL := DefaultSide(outdir, name, "R"), DefaultSide(outdir, name, "L");
    var hemiR := new Slot("R", sR.hemi, tR, sR.receipts, sR.evidence, sR.decisions);
    var hemiL := new Slot("L", sL.hemi, tL, sL.receipts, sL.evidence, sL.decisions);
    m := new Maat(name, hemiR, hemiL, LedgerPath(outdir, name, "observations"),
                  if generator.Some? then generator.value else Programmatic);
  }

  /** Different kinds give different files: the seven ledgers of an engine never share a path. */
  lemma DefaultPathsSeparate(outdir: string, name: string)
    ensures Separate(LedgerPath(outdir, name, "observations"), DefaultSide(outdir, name, "R"), DefaultSide(outdir, name, "L"))
  {
    var o := "observations";
    var re, rd, rr := "R" + "_evidence", "R" + "_decisions", "R" + "_receipts";
    var le, ld, lr := "L" + "_evidence", "L" + "_decisions", "L" + "_receipts";
    assert o[0] == 'o';
    assert re[0] == 'R' && rd[0] == 'R' && rr[0] == 'R' && le[0] == 'L' && ld[0] == 'L' && lr[0] == 'L';
    assert |re| == 10 && |rd| == 11 && |rr| == 10 && |le| == 10 && |ld| == 11 && |lr| == 10;
    assert re[2] == 'e' && rr[2] == 'r' && le[2] == 'e' && lr[2] == 'r';
    PathsOfKinds(outdir, name, re, rd);
    PathsOfKinds(outdir, name, re, rr);
    PathsOfKinds(outdir, name, rd, rr);
    PathsOfKinds(outdir, name, le, ld);
    PathsOfKinds(outdir, name, le, lr);
    PathsOfKinds(outdir, name, ld, lr);
    PathsOfKinds(outdir, name, re, le);
    PathsOfKinds(outdir, name, re, ld);
    PathsOfKinds(outdir, name, re, lr);
    PathsOfKinds(outdir, name, rd, le);
    PathsOfKinds(outdir, name, rd, ld);
    PathsOfKinds(outdir, name, rd, lr);
    PathsOfKinds(outdir, name, rr, le);
    PathsOfKinds(outdir, name, rr, ld);
    PathsOfKinds(outdir, name, rr, lr);
    PathsOfKinds(outdir, name, o, re);
    PathsOfKinds(outdir, name, o, rd);
    PathsOfKinds(outdir, name, o, rr);
    PathsOfKinds(outdir, name, o, le);
    PathsOfKinds(outdir, name, o, ld);
    PathsOfKinds(outdir, name, o, lr);
  }

  lemma PathsOfKinds(outdir: string, name: string, a: string, b: string)
    requires a != b
    ensures LedgerPath(outdir, name, a) != LedgerPath(outdir, name, b)
  {
    KindsDiffer(a, b);
    PathsDiffer(outdir, name, a, b);
  }

  lemma KindsDiffer(a: string, b: string)
    requires a != b
    ensures a + ".jsonl" != b + ".jsonl"
  {
    if |a| == |b| {
      assert (a + ".jsonl")[..|a|] == a && (b + ".jsonl")[..|b|] == b;
    }
  }

  lemma PathsDiffer(outdir: string, name: string, a: string, b: string)
    requires a + ".jsonl" != b + ".jsonl"
    ensures LedgerPath(outdir, name, a) != LedgerPath(outdir, name, b)
  {
    var p := outdir + "/" + name + "_";
    assert LedgerPath(outdir, name, a) == p + (a + ".jsonl");
    assert LedgerPath(outdir, name, b) == p + (b + ".jsonl");
    assert (p + (a + ".jsonl"))[|p|..] == a + ".jsonl";
    assert (p + (b + ".jsonl"))[|p|..] == b + ".jsonl";
  }

  /** L's thresholds are at least as strict as R's on every gate. */
  predicate Stricter(l: Thresholds, r: Thresholds) {
    l.bayes >= r.bayes && l.coh >= r.coh && l.mdl <= r.mdl
  }

  /** Under stricter thresholds, whatever is accepted would be accepted under the looser ones, and whatever the looser ones reject is rejected. */
  lemma StricterGates(post: real, coh: real, mdl: real, l: Thresholds, r: Thresholds)
    requires Stricter(l, r)
    ensures GateDecision(post, coh, mdl, l) == Accept ==> GateDecision(post, coh, mdl, r) == Accept
    ensures GateDecision(post, coh, mdl, r) == Reject ==> GateDecision(post, coh, mdl, l) == Reject
  {
  }

  /** The default L is strictly stricter than the default R on all three gates, so a hypothesis L accepts R accepts too. */
  lemma DefaultsNested(n: Numerics, series: seq<real>)
    ensures Stricter(DefaultL, DefaultR) && DefaultL.bayes > DefaultR.bayes && DefaultL.coh > DefaultR.coh && DefaultL.mdl < DefaultR.mdl
    ensures GateVerdict(n, series, DefaultL) == Accept ==> GateVerdict(n, series, DefaultR) == Accept
  {
    var u := DefaultUpdate(series);
    StricterGates(u.postMean, n.peakMean(series), n.mdlBits(series), DefaultL, DefaultR);
  }
}
