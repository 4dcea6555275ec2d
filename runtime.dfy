/**
 * Sums and means of a series, exact over `real` (Python's `sum(xs) / len(xs)`
 * on floats is modelled without rounding).
 */
module Series {

  function Sum(s: seq<real>): real {
    if s == [] then 0.0 else s[0] + Sum(s[1..])
  }

  /** `sum(s) / len(s)` on a non-empty series. */
  function Mean(s: seq<real>): real
    requires s != []
  {
    Sum(s) / |s| as real
  }

  lemma {:induction false} SumSnoc(s: seq<real>, x: real)
    ensures Sum(s + [x]) == Sum(s) + x
  {
    if s != [] {
      assert (s + [x])[1..] == s[1..] + [x];
      SumSnoc(s[1..], x);
    }
  }

  /** Every element strictly above `m` puts the sum strictly above `|s| * m`. */
  lemma {:induction false} SumAbove(s: seq<real>, m: real)
    requires s != [] && forall i | 0 <= i < |s| :: s[i] > m
    ensures Sum(s) > |s| as real * m
  {
    if |s| > 1 {
      SumAbove(s[1..], m);
    }
  }

  /** The sum of values in [lo, hi] lies in [|s| lo, |s| hi]. */
  lemma {:induction false} SumBounds(s: seq<real>, lo: real, hi: real)
    requires forall i | 0 <= i < |s| :: lo <= s[i] <= hi
    ensures |s| as real * lo <= Sum(s) <= |s| as real * hi
  {
    if s != [] {
      SumBounds(s[1..], lo, hi);
    }
  }

  lemma MeanBounds(s: seq<real>, lo: real, hi: real)
    requires s != [] && forall i | 0 <= i < |s| :: lo <= s[i] <= hi
    ensures lo <= Mean(s) <= hi
  {
    SumBounds(s, lo, hi);
  }
}

/**
 * The effects the core reaches outside itself, made explicit: the wall clock
 * (`now_iso`), `uuid4`, and the floating-point routines of the numerics
 * package (`fft_peak_mean`, `mdl_delta_bits`, `_linear_fit_residuals`,
 * `math.exp`), which are not modelled beyond the cases the core relies on.
 */
module Runtime {
  import opened Records

  /** The floating-point routines, with only the facts their code makes plain. */
  datatype Routines = Routines(
    peakMean: seq<real> -> real,         // fft_peak_mean(series)
    mdlBits: seq<real> -> real,          // mdl_delta_bits(series, model="linear", params=2)
    residuals: seq<real> -> seq<real>,   // _linear_fit_residuals(series)
    exp: real -> real)                   // math.exp

  /**
   * Fewer than four samples have no coherence, an empty series no MDL gain,
   * the residuals are one per sample, and `exp` is positive.
   */
  type Numerics = n: Routines |
    (forall s :: |s| < 4 ==> n.peakMean(s) == 0.0) && n.mdlBits([]) == 0.0 &&
    (forall s :: |n.residuals(s)| == |s|) && (forall x :: n.exp(x) > 0.0)
    witness Routines(s => 0.0, s => 0.0, s => seq(|s|, i => 0.0), x => 1.0)

  /** The process's clock and uuid source: the i-th call of each returns the i-th entry of its stream. */
  class Env {
    const clock: nat -> string
    const uuids: nat -> UuidHex
    var ticks: nat
    var draws: nat

    constructor (clock: nat -> string, uuids: nat -> UuidHex)
      ensures this.clock == clock && this.uuids == uuids
      ensures ticks == 0 && draws == 0
    {
      this.clock := clock;
      this.uuids := uuids;
      ticks := 0;
      draws := 0;
    }

    /** `now_iso()` */
    method NowIso() returns (ts: string)
      modifies this
      ensures ts == clock(old(ticks))
      ensures ticks == old(ticks) + 1 && draws == old(draws)
    {
      ts := clock(ticks);
      ticks := ticks + 1;
    }

    /** `uuid.uuid4().hex` */
    method Uuid4() returns (u: UuidHex)
      modifies this
      ensures u == uuids(old(draws))
      ensures draws == old(draws) + 1 && ticks == old(ticks)
    {
      u := uuids(draws);
      draws := draws + 1;
    }
  }
}
