/**
 * The hypothesis generators: a deterministic one that turns three statistics
 * of a series into three claims, an adapter that reads claims from an LLM
 * callable or, offline, from the lines of a file served round-robin, and a
 * hybrid that prefers the adapter and falls back to the deterministic one.
 */
module Generator {
  import opened Wrappers
  import opened Text
  import opened Decimal
  import opened Json
  import opened Ledger
  import opened Records
  import opened Runtime
  import Series

  // ---------------------------------------------------------------------
  // Hypothesis records

  /** `add_ukh(AGL_Hypothesis(claim, hemi, obs_ids))`, given the clock reading and the uuid it draws. */
  function HypRecord(h: Hasher, ts: string, u: UuidHex, claim: string, hemi: string, obsIds: seq<string>): (r: Obj)
    ensures WFObj(r) && Sealed(h, r)
  {
    HypothesisWF(ts, u, claim, hemi, obsIds, None);
    StampSeals(h, Hypothesis(ts, u, claim, hemi, obsIds, None));
    Stamp(h, Hypothesis(ts, u, claim, hemi, obsIds, None))
  }

  /** A generated hypothesis carries its fresh `hyp_` id, its claim, the hemisphere and the observation ids. */
  lemma HypRecordFields(h: Hasher, ts: string, u: UuidHex, claim: string, hemi: string, obsIds: seq<string>)
    ensures var r := HypRecord(h, ts, u, claim, hemi, obsIds);
      && Stamped(r, "AGL/Hypothesis", ts)
      && Get(r, "id") == Some(Str(GenId("hyp", u))) && Get(r, "claim") == Some(Str(claim))
      && Get(r, "hemi") == Some(Str(hemi)) && Get(r, "from") == Some(StrList(obsIds))
  {
    var o := Hypothesis(ts, u, claim, hemi, obsIds, None);
    HypothesisWF(ts, u, claim, hemi, obsIds, None);
    HypothesisFields(ts, u, claim, hemi, obsIds, None);
    StampKeeps(h, o, "spec");
    StampKeeps(h, o, "schema");
    StampKeeps(h, o, "ts");
    StampKeeps(h, o, "id");
    StampKeeps(h, o, "claim");
    StampKeeps(h, o, "hemi");
    StampKeeps(h, o, "from");
  }

  /** `HypRecord` for a fixed hemisphere and provenance, as a function of the clock reading, the uuid and the claim. */
  function HypMaker(h: Hasher, hemi: string, obsIds: seq<string>): (string, UuidHex, string) -> Obj {
    (ts: string, u: UuidHex, claim: string) => HypRecord(h, ts, u, claim, hemi, obsIds)
  }

  /**
   * `mk` applied to each claim in order, the i-th with the i-th clock
   * reading and uuid from `t0` and `d0` on.
   */
  function Drawn<T>(mk: (string, UuidHex, string) -> T, clock: nat -> string, t0: nat, uuids: nat -> UuidHex, d0: nat,
                    claims: seq<string>): (rs: seq<T>)
    ensures |rs| == |claims|
    decreases |claims|
  {
    if claims == [] then []
    else
      var k := |claims| - 1;
      Drawn(mk, clock, t0, uuids, d0, claims[..k]) + [mk(clock(t0 + k), uuids(d0 + k), claims[k])]
  }

  lemma DrawnSnoc<T>(mk: (string, UuidHex, string) -> T, clock: nat -> string, t0: nat,
                     uuids: nat -> UuidHex, d0: nat, claims: seq<string>)
    requires claims != []
    ensures var k := |claims| - 1;
      Drawn(mk, clock, t0, uuids, d0, claims) == Drawn(mk, clock, t0, uuids, d0, claims[..k]) + [mk(clock(t0 + k), uuids(d0 + k), claims[k])]
  {
  }

  /** One more claim, one more record at the end. */
  lemma DrawnExtend<T>(mk: (string, UuidHex, string) -> T, clock: nat -> string, t0: nat,
                       uuids: nat -> UuidHex, d0: nat, claims: seq<string>, i: nat)
    requires i < |claims|
    ensures Drawn(mk, clock, t0, uuids, d0, claims[..i + 1])
            == Drawn(mk, clock, t0, uuids, d0, claims[..i]) + [mk(clock(t0 + i), uuids(d0 + i), claims[i])]
  {
    assert claims[..i + 1][..i] == claims[..i] && claims[..i + 1][i] == claims[i];
    DrawnSnoc(mk, clock, t0, uuids, d0, claims[..i + 1]);
  }

  lemma {:induction false} DrawnAt<T>(mk: (string, UuidHex, string) -> T, clock: nat -> string, t0: nat,
                                      uuids: nat -> UuidHex, d0: nat, claims: seq<string>, i: nat)
    requires i < |claims|
    ensures Drawn(mk, clock, t0, uuids, d0, claims)[i] == mk(clock(t0 + i), uuids(d0 + i), claims[i])
    decreases |claims|
  {
    var k := |claims| - 1;
    if i < k {
      DrawnAt(mk, clock, t0, uuids, d0, claims[..k], i);
      assert claims[..k][i] == claims[i];
    }
  }

  /** One stamped hypothesis per claim, in claim order, each with its own clock reading and uuid. */
  function HypRecords(h: Hasher, clock: nat -> string, t0: nat, uuids: nat -> UuidHex, d0: nat,
                      claims: seq<string>, hemi: string, obsIds: seq<string>): (rs: seq<Obj>)
    ensures |rs| == |claims|
  {
    Drawn(HypMaker(h, hemi, obsIds), clock, t0, uuids, d0, claims)
  }

  /** The i-th hypothesis is sealed and carries its own fresh id, the i-th claim, the hemisphere and the observation ids. */
  lemma HypRecordsCarry(h: Hasher, clock: nat -> string, t0: nat, uuids: nat -> UuidHex, d0: nat,
                        claims: seq<string>, hemi: string, obsIds: seq<string>, i: nat)
    requires i < |claims|
    ensures var r := HypRecords(h, clock, t0, uuids, d0, claims, hemi, obsIds)[i];
      && WFObj(r) && Sealed(h, r)
      && Get(r, "id") == Some(Str(GenId("hyp", uuids(d0 + i)))) && Get(r, "claim") == Some(Str(claims[i]))
      && Get(r, "hemi") == Some(Str(hemi)) && Get(r, "from") == Some(StrList(obsIds))
  {
    DrawnAt(HypMaker(h, hemi, obsIds), clock, t0, uuids, d0, claims, i);
    HypRecordFields(h, clock(t0 + i), uuids(d0 + i), claims[i], hemi, obsIds);
  }

  /**
   * The loop `for claim in claims: hyps.append(add_ukh(AGL_Hypothesis(claim, hemi, obs_ids)))`,
   * with `mk` building and stamping one hypothesis from the clock reading and the uuid it draws.
   */
  method MakeRecords(mk: (string, UuidHex, string) -> Obj, env: Env, claims: seq<string>) returns (hyps: seq<Obj>)
    modifies env
    ensures hyps == Drawn(mk, env.clock, old(env.ticks), env.uuids, old(env.draws), claims)
    ensures env.ticks == old(env.ticks) + |claims| && env.draws == old(env.draws) + |claims|
  {
    ghost var t0, d0 := env.ticks, env.draws;
    hyps := [];
    for i := 0 to |claims|
      invariant env.ticks == t0 + i && env.draws == d0 + i
      invariant hyps == Drawn(mk, env.clock, t0, env.uuids, d0, claims[..i])
    {
      var ts := env.NowIso();
      var u := env.Uuid4();
      DrawnExtend(mk, env.clock, t0, env.uuids, d0, claims, i);
      hyps := hyps + [mk(ts, u, claims[i])];
    }
    assert claims[..|claims|] == claims;
  }

  /** One stamped hypothesis per claim, carrying the claim, `hemi` and `obs_ids`. */
  method MakeHypotheses(h: Hasher, env: Env, claims: seq<string>, hemi: string, obsIds: seq<string>)
    returns (hyps: seq<Obj>)
    modifies env
    ensures hyps == HypRecords(h, env.clock, old(env.ticks), env.uuids, old(env.draws), claims, hemi, obsIds)
    ensures env.ticks == old(env.ticks) + |claims| && env.draws == old(env.draws) + |claims|
  {
    hyps := MakeRecords(HypMaker(h, hemi, obsIds), env, claims);
  }

  // ---------------------------------------------------------------------
  // ProgrammaticGenerator

  /** `(resid[-1] - resid[0]) / len(resid)` over the linear-fit residuals, 0 with fewer than two. */
  function Slope(n: Numerics, series: seq<real>): real {
    var resid := n.residuals(series);
    if |resid| > 1 then (resid[|resid| - 1] - resid[0]) / |resid| as real else 0.0
  }

  /** The conclusions of the three programmatic claims. */
  const ImpliesStability: string := " implies stability"
  const ImpliesTrend: string := " implies trend"
  const ImpliesPattern: string := " implies periodic pattern"

  /** The three claims of `ProgrammaticGenerator.generate`, none for an empty series. */
  function ProgrammaticClaims(n: Numerics, series: seq<real>): (cs: seq<string>)
    ensures |cs| == (if series == [] then 0 else 3)
  {
    if series == [] then []
    else ["mean>" + FormatFixed(Finite(Series.Mean(series)), 3) + ImpliesStability,
          "slope>" + FormatFixed(Finite(Slope(n, series)), 3) + ImpliesTrend,
          "coherence>" + FormatFixed(Finite(n.peakMean(series)), 2) + ImpliesPattern]
  }

  /** `ProgrammaticGenerator.generate(obs_ids, series, hemi)`. */
  method ProgrammaticGenerate(h: Hasher, n: Numerics, env: Env, obsIds: seq<string>, series: seq<real>, hemi: string)
    returns (hyps: seq<Obj>)
    modifies env
    ensures hyps == HypRecords(h, env.clock, old(env.ticks), env.uuids, old(env.draws), ProgrammaticClaims(n, series), hemi, obsIds)
    ensures env.ticks == old(env.ticks) + |hyps| && env.draws == old(env.draws) + |hyps|
  {
    if series == [] {
      return [];
    }
    var mu := Series.Mean(series);
    var slope := Slope(n, series);
    var coh := n.peakMean(series);
    var claims := ["mean>" + FormatFixed(Finite(mu), 3) + ImpliesStability,
                   "slope>" + FormatFixed(Finite(slope), 3) + ImpliesTrend,
                   "coherence>" + FormatFixed(Finite(coh), 2) + ImpliesPattern];
    hyps := MakeHypotheses(h, env, claims, hemi, obsIds);
  }

  // ---------------------------------------------------------------------
  // LLMAdapter: the offline file and the round-robin

  /** What a kept line of the offline file is: non-blank, stripped, a single line. */
  predicate KeptLine(l: string) {
    l != [] && NoEdgeSpace(l) && '\n' !in l
  }

  /** The lines of a text-mode file, each stripped, blank ones dropped. */
  function NonBlank(pieces: seq<string>): seq<string>
    decreases |pieces|
  {
    if pieces == [] then []
    else
      var s := Strip(pieces[0]);
      (if s == [] then [] else [s]) + NonBlank(pieces[1..])
  }

  lemma {:induction false} NonBlankKept(pieces: seq<string>)
    requires forall i | 0 <= i < |pieces| :: '\n' !in pieces[i]
    ensures forall i | 0 <= i < |NonBlank(pieces)| :: KeptLine(NonBlank(pieces)[i])
    decreases |pieces|
  {
    if pieces != [] {
      var s := Strip(pieces[0]);
      StripShape(pieces[0]);
      StripAvoids(pieces[0], '\n');
      NonBlankKept(pieces[1..]);
      var head: seq<string> := if s == [] then [] else [s];
      assert forall i | 0 <= i < |head| :: KeptLine(head[i]);
      assert NonBlank(pieces) == head + NonBlank(pieces[1..]);
    }
  }

  /** `[line.strip() for line in f if line.strip()]` for a file holding `text`: every kept line is non-blank and stripped. */
  function FileLines(text: string): (ls: seq<string>)
    ensures forall i | 0 <= i < |ls| :: KeptLine(ls[i])
  {
    NonBlankKept(Split(Universal(text), '\n'));
    NonBlank(Split(Universal(text), '\n'))
  }

  /** The fields of an adapter: the optional callable, the file's lines and `hyp_file_index`. */
  datatype AdapterState = AdapterState(llmFn: Option<string -> string>, lines: seq<string>, index: nat)

  /** `_call_llm(prompt)`: the response and the new index. */
  function Response(a: AdapterState, prompt: string): (string, nat) {
    if a.lines != [] then
      var i := if a.index >= |a.lines| then 0 else a.index;
      (a.lines[i], i + 1)
    else if a.llmFn.Some? then (a.llmFn.value(prompt), a.index)
    else ("", a.index)
  }

  /**
   * With file lines the response ignores the prompt and serves line
   * `index mod |lines|`, leaving the index in [1, |lines|]; without them it
   * is the callable's answer, or "" with no callable, and the index stays.
   */
  lemma ResponseServes(a: AdapterState, prompt: string)
    ensures a.lines != [] && a.index <= |a.lines| ==>
      && Response(a, prompt).0 == a.lines[a.index % |a.lines|]
      && Response(a, prompt).1 == a.index % |a.lines| + 1
      && 1 <= Response(a, prompt).1 <= |a.lines|
    ensures a.lines == [] ==>
      Response(a, prompt) == (if a.llmFn.Some? then a.llmFn.value(prompt) else "", a.index)
  {
    if a.lines != [] && a.index <= |a.lines| {
      if a.index == |a.lines| {
        assert a.index % |a.lines| == 0;
      } else {
        assert a.index % |a.lines| == a.index;
      }
    }
  }

  /** The state after `k` calls. */
  function Called(a: AdapterState, prompt: string, k: nat): AdapterState {
    if k == 0 then a else a.(index := Response(Called(a, prompt, k - 1), prompt).1)
  }

  /** From a fresh adapter with file lines, call number `k` (from 0) answers line `k mod |lines|`: the lines are served in a cycle. */
  lemma {:induction false} RoundRobin(a: AdapterState, prompt: string, k: nat)
    requires a.lines != [] && a.index == 0
    ensures Called(a, prompt, k).lines == a.lines
    ensures Called(a, prompt, k).index == (if k == 0 then 0 else (k - 1) % |a.lines| + 1)
    ensures Response(Called(a, prompt, k), prompt).0 == a.lines[k % |a.lines|]
  {
    if k > 0 {
      RoundRobin(a, prompt, k - 1);
      ResponseServes(Called(a, prompt, k - 1), prompt);
      var n := |a.lines|;
      if k - 1 > 0 {
        ModStep(k - 2, n);
      }
    }
    var c := Called(a, prompt, k);
    ResponseServes(c, prompt);
    if k > 0 {
      ModStep(k - 1, n := |a.lines|);
    }
  }

  /** `(j mod n + 1) mod n == (j + 1) mod n` */
  lemma ModStep(j: nat, n: nat)
    requires n > 0
    ensures (j % n + 1) % n == (j + 1) % n
    ensures j % n + 1 <= n
  {
    var q, r := j / n, j % n;
    if r + 1 < n {
      ModUnique(j + 1, n, q, r + 1);
      ModUnique(r + 1, n, 0, r + 1);
    } else {
      ModUnique(j + 1, n, q + 1, 0);
      ModUnique(r + 1, n, 1, 0);
    }
  }

  /** Quotient and remainder are unique. */
  lemma ModUnique(x: int, n: int, q: int, r: int)
    requires n > 0 && 0 <= r < n && x == q * n + r
    ensures x % n == r && x / n == q
  {
    var d := x / n - q;
    assert n * d == r - x % n;
    if d >= 1 {
      assert false;
    } else if d <= -1 {
      assert false;
    }
  }

  // ---------------------------------------------------------------------
  // LLMAdapter.parse_hypotheses

  const Bullet: string := "\U{E2}\U{20AC}\U{A2} "

  /** The prefixes `parse_hypotheses` removes, in the order it tries them. */
  const Prefixes: seq<string> := ["- ", "* ", Bullet, "1. ", "2. ", "3. "]

  /** The prefix loop: each prefix in turn, removed (and the rest stripped) when the claim starts with it. */
  function DropPrefixes(claim: string, ps: seq<string>): string
    decreases |ps|
  {
    if ps == [] then claim
    else DropPrefix(DropPrefixes(claim, ps[..|ps| - 1]), ps[|ps| - 1])
  }

  /** One pass of the prefix loop: remove `p` and strip what is left, when the claim starts with `p`. */
  function DropPrefix(c: string, p: string): string {
    if StartsWith(c, p) then Strip(c[|p|..]) else c
  }

  /** The prefix loop run over the first `k + 1` prefixes is one more pass after the first `k`. */
  lemma DropPrefixesStep(claim: string, k: nat)
    requires k < |Prefixes|
    ensures DropPrefixes(claim, Prefixes[..k + 1]) == DropPrefix(DropPrefixes(claim, Prefixes[..k]), Prefixes[k])
  {
    assert Prefixes[..k + 1][..k] == Prefixes[..k];
  }

  /** The claim one comma-separated piece contributes, if any. */
  function PieceClaim(piece: string): seq<string> {
    var c := Strip(piece);
    if c == [] then []
    else
      var d := DropPrefixes(c, Prefixes);
      if d == [] then [] else [d]
  }

  function PiecesClaims(pieces: seq<string>): seq<string>
    decreases |pieces|
  {
    if pieces == [] then []
    else PiecesClaims(pieces[..|pieces| - 1]) + PieceClaim(pieces[|pieces| - 1])
  }

  /** The claims of one line: none when blank, else those of its comma-separated pieces. */
  function LineClaims(line: string): seq<string> {
    var l := Strip(line);
    if l == [] then [] else PiecesClaims(Split(l, ','))
  }

  function LinesClaims(lines: seq<string>): seq<string>
    decreases |lines|
  {
    if lines == [] then []
    else LinesClaims(lines[..|lines| - 1]) + LineClaims(lines[|lines| - 1])
  }

  /** The claims `parse_hypotheses` extracts from `text`, in text order. */
  function Claims(text: string): seq<string> {
    LinesClaims(Split(text, '\n'))
  }

  /** What every extracted claim is: non-empty, stripped, with no line break and no comma. */
  predicate Clean(c: string) {
    c != [] && NoEdgeSpace(c) && '\n' !in c && ',' !in c
  }

  predicate AllClean(cs: seq<string>) {
    forall i | 0 <= i < |cs| :: Clean(cs[i])
  }

  lemma {:induction false} DropPrefixesKeeps(claim: string, ps: seq<string>)
    requires NoEdgeSpace(claim) && '\n' !in claim && ',' !in claim
    ensures var d := DropPrefixes(claim, ps); NoEdgeSpace(d) && '\n' !in d && ',' !in d
    decreases |ps|
  {
    if ps != [] {
      DropPrefixesKeeps(claim, ps[..|ps| - 1]);
      var c := DropPrefixes(claim, ps[..|ps| - 1]);
      var p := ps[|ps| - 1];
      if StartsWith(c, p) {
        var rest := c[|p|..];
        assert '\n' !in rest && ',' !in rest;
        StripShape(rest);
        StripAvoids(rest, '\n');
        StripAvoids(rest, ',');
      }
    }
  }

  lemma PieceClaimClean(piece: string)
    requires '\n' !in piece && ',' !in piece
    ensures AllClean(PieceClaim(piece))
  {
    var c := Strip(piece);
    StripShape(piece);
    StripAvoids(piece, '\n');
    StripAvoids(piece, ',');
    DropPrefixesKeeps(c, Prefixes);
  }

  lemma {:induction false} PiecesClaimsClean(pieces: seq<string>)
    requires forall i | 0 <= i < |pieces| :: '\n' !in pieces[i] && ',' !in pieces[i]
    ensures AllClean(PiecesClaims(pieces))
    decreases |pieces|
  {
    if pieces != [] {
      PiecesClaimsClean(pieces[..|pieces| - 1]);
      PieceClaimClean(pieces[|pieces| - 1]);
    }
  }

  lemma LineClaimsClean(line: string)
    requires '\n' !in line
    ensures AllClean(LineClaims(line))
  {
    var l := Strip(line);
    StripAvoids(line, '\n');
    if l != [] {
      SplitAvoids(l, ',', '\n');
      PiecesClaimsClean(Split(l, ','));
    }
  }

  lemma {:induction false} LinesClaimsClean(lines: seq<string>)
    requires forall i | 0 <= i < |lines| :: '\n' !in lines[i]
    ensures AllClean(LinesClaims(lines))
    decreases |lines|
  {
    if lines != [] {
      LinesClaimsClean(lines[..|lines| - 1]);
      LineClaimsClean(lines[|lines| - 1]);
    }
  }

  /** Every claim `parse_hypotheses` extracts is non-empty, stripped, and holds no line break and no comma. */
  lemma ClaimsClean(text: string)
    ensures AllClean(Claims(text))
  {
    LinesClaimsClean(Split(text, '\n'));
  }

  /** Passes whose prefix the running claim does not start with leave it as it is. */
  lemma {:induction false} DropPrefixesSkip(claim: string, m: nat, k: nat)
    requires m <= k <= |Prefixes|
    requires forall j | m <= j < k :: !StartsWith(DropPrefixes(claim, Prefixes[..m]), Prefixes[j])
    ensures DropPrefixes(claim, Prefixes[..k]) == DropPrefixes(claim, Prefixes[..m])
    decreases k - m
  {
    if m < k {
      DropPrefixesStep(claim, m);
      DropPrefixesSkip(claim, m + 1, k);
    }
  }

  /** When no later prefix matches after the first `m` passes, the whole loop ends where those passes did. */
  lemma DropPrefixesRest(claim: string, m: nat)
    requires m <= |Prefixes|
    requires forall j | m <= j < |Prefixes| :: !StartsWith(DropPrefixes(claim, Prefixes[..m]), Prefixes[j])
    ensures DropPrefixes(claim, Prefixes) == DropPrefixes(claim, Prefixes[..m])
  {
    DropPrefixesSkip(claim, m, |Prefixes|);
    assert Prefixes[..|Prefixes|] == Prefixes;
  }

  /** A piece with no edge whitespace goes straight into the prefix loop. */
  lemma PieceClaimOfStripped(piece: string)
    requires piece != [] && NoEdgeSpace(piece)
    ensures PieceClaim(piece) == (var d := DropPrefixes(piece, Prefixes); if d == [] then [] else [d])
  {
    StripNoEdge(piece);
  }

  /** A pass whose prefix the claim starts with leaves the rest, already stripped. */
  lemma DropPrefixOf(p: string, rest: string)
    requires NoEdgeSpace(rest)
    ensures DropPrefix(p + rest, p) == rest
  {
    assert (p + rest)[..|p|] == p && (p + rest)[|p|..] == rest;
    StripNoEdge(rest);
  }

  /** When the claim is still whole before pass `k` and starts with that pass's prefix, the pass leaves the rest. */
  lemma DropPrefixesThrough(s: string, p: string, rest: string, k: nat)
    requires k < |Prefixes| && Prefixes[k] == p && s == p + rest && NoEdgeSpace(rest)
    requires DropPrefixes(s, Prefixes[..k]) == s
    ensures DropPrefixes(s, Prefixes[..k + 1]) == rest
  {
    DropPrefixesStep(s, k);
    DropPrefixOf(p, rest);
  }

  /**
   * A leading "- " is removed once only: a claim "- " + rest, where rest
   * starts with no prefix but perhaps "- ", comes out as rest.
   */
  lemma PrefixTriedOnce(rest: string)
    requires rest != [] && NoEdgeSpace(rest)
    requires forall j | 1 <= j < |Prefixes| :: !StartsWith(rest, Prefixes[j])
    ensures PieceClaim("- " + rest) == [rest]
  {
    var s := "- " + rest;
    assert NoEdgeSpace(s);
    PieceClaimOfStripped(s);
    DashFirstPass(rest);
    DropPrefixesRest(s, 1);
  }

  /** The first pass of the prefix loop takes "- " off "- " + rest. */
  lemma DashFirstPass(rest: string)
    requires NoEdgeSpace(rest)
    ensures DropPrefixes("- " + rest, Prefixes[..1]) == rest
  {
    var s := "- " + rest;
    assert DropPrefixes(s, Prefixes[..0]) == s;
    DropPrefixesThrough(s, "- ", rest, 0);
  }

  /**
   * The prefixes are tried in list order: in "1. " + rest the number goes,
   * and a "- " that it uncovers stays, because "- " was tried first.
   */
  lemma PrefixListOrder(rest: string)
    requires rest != [] && NoEdgeSpace(rest)
    requires !StartsWith(rest, "2. ") && !StartsWith(rest, "3. ")
    ensures PieceClaim("1. " + rest) == [rest]
  {
    var s := "1. " + rest;
    assert NoEdgeSpace(s);
    PieceClaimOfStripped(s);
    assert forall j | 0 <= j < 3 :: !StartsWith(s, Prefixes[j]) by {
      assert s[0] == '1';
    }
    assert DropPrefixes(s, Prefixes[..0]) == s;
    DropPrefixesSkip(s, 0, 3);
    DropPrefixesThrough(s, "1. ", rest, 3);
    DropPrefixesSkip(s, 4, |Prefixes|);
    assert Prefixes[..|Prefixes|] == Prefixes;
  }

  /** The nested loops of `parse_hypotheses` that collect the claims. */
  method ExtractClaims(text: string) returns (claims: seq<string>)
    ensures claims == Claims(text)
  {
    claims := [];
    var lines := Split(text, '\n');
    for i := 0 to |lines|
      invariant claims == LinesClaims(lines[..i])
    {
      assert lines[..i + 1][..i] == lines[..i];
      var more := ExtractLine(lines[i]);
      claims := claims + more;
    }
    assert lines[..|lines|] == lines;
  }

  /** One pass of the outer loop: the claims of one line. */
  method ExtractLine(text: string) returns (claims: seq<string>)
    ensures claims == LineClaims(text)
  {
    var line := Strip(text);
    if line == [] {
      return [];
    }
    claims := ExtractPieces(Split(line, ','));
  }

  /** The inner loop, over the comma-separated pieces of a line. */
  method ExtractPieces(pieces: seq<string>) returns (claims: seq<string>)
    ensures claims == PiecesClaims(pieces)
  {
    claims := [];
    for j := 0 to |pieces|
      invariant claims == PiecesClaims(pieces[..j])
    {
      assert pieces[..j + 1][..j] == pieces[..j];
      var claim := CleanPiece(pieces[j]);
      claims := claims + claim;
    }
    assert pieces[..|pieces|] == pieces;
  }

  /** The body of the inner loop: strip, the prefix loop, keep when non-empty. */
  method CleanPiece(piece: string) returns (kept: seq<string>)
    ensures kept == PieceClaim(piece)
  {
    var claim := Strip(piece);
    if claim == [] {
      return [];
    }
    ghost var start := claim;
    for k := 0 to |Prefixes|
      invariant claim == DropPrefixes(start, Prefixes[..k])
    {
      DropPrefixesStep(start, k);
      if StartsWith(claim, Prefixes[k]) {
        claim := Strip(claim[|Prefixes[k]|..]);
      }
    }
    assert Prefixes[..|Prefixes|] == Prefixes;
    kept := if claim == [] then [] else [claim];
  }

  // ---------------------------------------------------------------------
  // LLMAdapter.generate

  function SeqMin(s: seq<real>): (m: real)
    requires s != []
    ensures m in s && forall i | 0 <= i < |s| :: m <= s[i]
  {
    if |s| == 1 then s[0]
    else var r := SeqMin(s[1..]); if s[0] <= r then s[0] else r
  }

  function SeqMax(s: seq<real>): (m: real)
    requires s != []
    ensures m in s && forall i | 0 <= i < |s| :: m >= s[i]
  {
    if |s| == 1 then s[0]
    else var r := SeqMax(s[1..]); if s[0] >= r then s[0] else r
  }

  /** The prompt `LLMAdapter.generate` sends: the sample count, mean, minimum and maximum. */
  function Prompt(series: seq<real>): string
    requires series != []
  {
    "Given a time series with " + NatToString(|series|) + " samples:\n"
    + "- Mean: " + FormatFixed(Finite(Series.Mean(series)), 3) + "\n"
    + "- Min: " + FormatFixed(Finite(SeqMin(series)), 3) + "\n"
    + "- Max: " + FormatFixed(Finite(SeqMax(series)), 3) + "\n\n"
    + PromptRequest
  }

  /** The closing request of the prompt. */
  const PromptRequest: string := "Generate 3 testable hypotheses about this data.\nFormat: one hypothesis per line."

  /** `LLMAdapter.generate`: the claims it parses and the adapter afterwards; no call at all for an empty series. */
  function LlmStep(a: AdapterState, series: seq<real>): (seq<string>, AdapterState) {
    if series == [] then ([], a)
    else
      var r := Response(a, Prompt(series));
      (Claims(r.0), a.(index := r.1))
  }

  // ---------------------------------------------------------------------
  // HybridGenerator.generate

  /** The claims `HybridGenerator.generate` ends with, and the adapter afterwards. */
  function HybridStep(n: Numerics, a: Option<AdapterState>, useLlm: bool, series: seq<real>): (seq<string>, Option<AdapterState>) {
    var t := Tried(a, useLlm, series);
    (if t.0 != [] then t.0 else ProgrammaticClaims(n, series), t.1)
  }

  /** The adapter's attempt: made only with `use_llm` and an adapter present, otherwise no claims and no change. */
  function Tried(a: Option<AdapterState>, useLlm: bool, series: seq<real>): (seq<string>, Option<AdapterState>) {
    if useLlm && a.Some? then
      var s := LlmStep(a.value, series);
      (s.0, Some(s.1))
    else ([], a)
  }

  /**
   * The hybrid answers with the adapter's claims exactly when asked to use it,
   * there is one, and it found some; otherwise with the three programmatic
   * claims. So it comes back empty only for an empty series.
   */
  lemma HybridChoice(n: Numerics, a: Option<AdapterState>, useLlm: bool, series: seq<real>)
    ensures var r := HybridStep(n, a, useLlm, series);
      && (useLlm && a.Some? && LlmStep(a.value, series).0 != [] ==> r.0 == LlmStep(a.value, series).0)
      && (!(useLlm && a.Some? && LlmStep(a.value, series).0 != []) ==> r.0 == ProgrammaticClaims(n, series))
      && (r.0 == [] <==> series == [])
      && (a.None? || !useLlm ==> r.1 == a)
  {
  }

  // ---------------------------------------------------------------------
  // The classes

  class LlmAdapter {
    const llmFn: Option<string -> string>
    const lines: seq<string>
    var index: nat

    function State(): AdapterState
      reads this
    {
      AdapterState(llmFn, lines, index)
    }

    /** `LLMAdapter(llm_fn, hyp_file)`, with the file's text when it exists. */
    constructor(llmFn: Option<string -> string>, file: Option<string>)
      ensures State() == AdapterState(llmFn, if file.Some? then FileLines(file.value) else [], 0)
    {
      this.llmFn := llmFn;
      lines := if file.Some? then FileLines(file.value) else [];
      index := 0;
    }

    /** `_call_llm(prompt)` */
    method CallLlm(prompt: string) returns (response: string)
      modifies this
      ensures (response, index) == Response(old(State()), prompt)
    {
      if lines != [] {
        if index >= |lines| {
          index := 0;
        }
        response := lines[index];
        index := index + 1;
        return;
      }
      if llmFn.Some? {
        return llmFn.value(prompt);
      }
      return "";
    }

    /** `parse_hypotheses(text, obs_ids, hemi)`: one stamped hypothesis per extracted claim. */
    method ParseHypotheses(h: Hasher, env: Env, text: string, obsIds: seq<string>, hemi: string)
      returns (hyps: seq<Obj>)
      modifies env
      ensures hyps == HypRecords(h, env.clock, old(env.ticks), env.uuids, old(env.draws), Claims(text), hemi, obsIds)
      ensures env.ticks == old(env.ticks) + |hyps| && env.draws == old(env.draws) + |hyps|
    {
      var claims := ExtractClaims(text);
      hyps := MakeHypotheses(h, env, claims, hemi, obsIds);
    }

    /** `generate(obs_ids, series, hemi)` */
    method Generate(h: Hasher, env: Env, obsIds: seq<string>, series: seq<real>, hemi: string)
      returns (hyps: seq<Obj>)
      modifies this, env
      ensures var s := LlmStep(old(State()), series);
        && State() == s.1
        && hyps == HypRecords(h, env.clock, old(env.ticks), env.uuids, old(env.draws), s.0, hemi, obsIds)
        && env.ticks == old(env.ticks) + |hyps| && env.draws == old(env.draws) + |hyps|
    {
      if series == [] {
        return [];
      }
      var prompt := Prompt(series);
      var response := CallLlm(prompt);
      hyps := ParseHypotheses(h, env, response, obsIds, hemi);
    }
  }

  class HybridGenerator {
    const adapter: LlmAdapter?

    constructor(adapter: LlmAdapter?)
      ensures this.adapter == adapter
    {
      this.adapter := adapter;
    }

    function AdapterOf(): Option<AdapterState>
      reads adapter
    {
      if adapter == null then None else Some(adapter.State())
    }

    /** `generate(obs_ids, series, hemi, use_llm)` */
    method Generate(h: Hasher, n: Numerics, env: Env, obsIds: seq<string>, series: seq<real>, hemi: string, useLlm: bool)
      returns (hyps: seq<Obj>)
      modifies env, adapter
      ensures AdapterOf() == HybridStep(n, old(AdapterOf()), useLlm, series).1
      ensures hyps == HypRecords(h, env.clock, old(env.ticks), env.uuids, old(env.draws), HybridStep(n, old(AdapterOf()), useLlm, series).0, hemi, obsIds)
      ensures env.ticks == old(env.ticks) + |hyps| && env.draws == old(env.draws) + |hyps|
    {
      ghost var t := Tried(AdapterOf(), useLlm, series).0;
      ghost var t0, d0 := env.ticks, env.draws;
      hyps := TryLlm(h, env, obsIds, series, hemi, useLlm);
      if |hyps| == 0 {
        assert t == [] && env.ticks == t0 && env.draws == d0;
        hyps := Fallback(h, n, env, obsIds, series, hemi);
      }
    }

    /** The programmatic generator, which leaves the adapter as it is. */
    method Fallback(h: Hasher, n: Numerics, env: Env, obsIds: seq<string>, series: seq<real>, hemi: string)
      returns (hyps: seq<Obj>)
      modifies env
      ensures AdapterOf() == old(AdapterOf())
      ensures hyps == HypRecords(h, env.clock, old(env.ticks), env.uuids, old(env.draws), ProgrammaticClaims(n, series), hemi, obsIds)
      ensures env.ticks == old(env.ticks) + |hyps| && env.draws == old(env.draws) + |hyps|
    {
      hyps := ProgrammaticGenerate(h, n, env, obsIds, series, hemi);
    }

    /** The adapter's attempt, made only with `use_llm` and an adapter present. */
    method TryLlm(h: Hasher, env: Env, obsIds: seq<string>, series: seq<real>, hemi: string, useLlm: bool)
      returns (hyps: seq<Obj>)
      modifies env, adapter
      ensures AdapterOf() == Tried(old(AdapterOf()), useLlm, series).1
      ensures hyps == HypRecords(h, env.clock, old(env.ticks), env.uuids, old(env.draws), Tried(old(AdapterOf()), useLlm, series).0, hemi, obsIds)
      ensures env.ticks == old(env.ticks) + |hyps| && env.draws == old(env.draws) + |hyps|
    {
      if useLlm && adapter != null {
        hyps := adapter.Generate(h, env, obsIds, series, hemi);
      } else {
        hyps := [];
      }
    }
  }
}
