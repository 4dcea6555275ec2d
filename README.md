# MA'AT decision pipeline, modelled in Dafny

MA'AT is a bicameral hypothesis-testing engine. Every cycle:

1. It writes one observation (a numeric series) to an append-only JSON-lines ledger.
2. A generator proposes hypotheses about it.
3. A right-hemisphere "slot" judges each hypothesis with three gates: a Beta-Bernoulli posterior, a coherence score and an MDL score.
4. A stricter left-hemisphere slot judges only what the right one accepted (the "callosum" rule).

For every hypothesis, a slot appends an evidence record, a decision record and a receipt to its own three ledgers. Every record carries a content hash (`ukh`, BLAKE2b-256 of the record's canonical JSON without its own `ukh`). Around the engine sit:

- a learned policy that loosens or tightens the thresholds;
- a reactor-style controller (control rods, SCRAM) that runs one engine over the receipts of another;
- a causal graph that refuses edges which would close a cycle;
- a decidability classifier;
- a domain translator.

The Dafny project models these parts with:

- **Values:**
  - JSON values as a datatype; Python dicts keep their insertion order and contents.
  - Floats as exact reals, with IEEE specials kept apart.
  - Records as dict values.
- **Objects whose fields the program mutates:** classes (`Store`, `JsonDict`, `Slot`, `Maat`, `LlmAdapter`, `HybridGenerator`, `LearnedGatesPolicy`, `ControlRod`, `ReactorControl`, `RecursiveMaat`, `CausalGraph`).
- **Loops:** methods with loop invariants, each tied to a specification function, with the program's promises proved as lemmas about those functions.
- **Outside inputs:** the clock, `uuid4`, the LLM callable, the hash function and the floating-point numerics (`fft_peak_mean`, `mdl_delta_bits`) are parameters, or come from an environment object that hands out a stream of values.

The modules are:

- **`Text`, `Decimal`:** strings, digits, sorting, Python's `strip`/`rstrip`/`split`, and the 15-place float rendering of `_decimal_string`.
- **`Json`, `JsonWriter`, `JsonReader`, `JsonRoundTrip`:** the value model, `_canon_value`/`_canon_dict`, `json.dumps` (compact, sorted keys, `ensure_ascii=False`), the subset of `json.loads` the ledger needs, and the proof that a canonical line reads back as the value written.
- **`Ledger`:** `canonical_json`, `compute_ukh`, `add_ukh`, `append_jsonl`, `read_jsonl` over a `Store` of files.
- **`Records`:** the AGL record factories and `gen_id`.
- **`Gates`:** `evaluate_gates`, `compute_bayesian_update`, the attention metrics, and `Slot.decide`.
- **`Generator`:** the programmatic generator, `LLMAdapter` and `HybridGenerator`.
- **`Engine`:** the `MAAT` class, `get_stats` and `create_maat_engine`.
- **`Policy`:** `LearnedGatesPolicy`.
- **`Reactor`:** control rods, the reactor control, SCRAM, and the recursive engine's telemetry and run loop.
- **`Causal`:** `CausalGraph`.
- **`Decidability`:** `DecidabilityGate`.
- **`Translation`:** `DomainTranslator`.
- **`Series`, `Runtime`:** sums and means of a series, and the environment of clock, uuid and numeric routines.

## Model

| member | source | states |
|---|---|---|
| Decimal.RoundHalfEven | maat/core/canonical.py:17 | the integer the 15-place format rounds to lies within 0.5 of the value, and on an exact tie it is the even one |
| Decimal.RoundHalfEvenUnique | maat/core/canonical.py:17 | any integer within 0.5 of the value, and even on a tie, is the rounded one: the rounding is determined |
| Decimal.Scaled | maat/core/canonical.py:17 | the digits `f"{x:.15f}"` prints are the magnitude times 10^15, rounded to within 0.5 |
| Decimal.FallbackUnreachable | maat/core/canonical.py:17-19 | the stripped 15-place text of every float is non-empty, so `_decimal_string` never falls back to "0" and is exactly the stripped text |
| Decimal.StrippedTextShape | maat/core/canonical.py:17-18 | the stripped text is the sign, the integer digits and, only when some fraction digit is not zero, "." and the fraction without trailing zeros |
| Decimal.DecimalStringNoTrailingZeros | maat/core/canonical.py:17-19 | the rendering of every finite float is non-empty, does not end in "." and has no trailing "0" after a point |
| Decimal.StrippedTextReadsBack | maat/core/canonical.py:17-18 | reading the stripped text as a fixed-point number gives back the sign and the scaled digits |
| Decimal.DecimalStringReadsBack | maat/core/canonical.py:17-19 | reading a rendering back gives the float's sign and its value rounded to 15 places: nothing the rounding keeps is lost |
| Decimal.DecimalStringInjective | maat/core/canonical.py:17-19 | two finite floats render alike if and only if they have the same sign and round to the same 15-place value |
| Decimal.DecimalStringOfInteger | maat/core/canonical.py:17-19 | an integral float renders as its integer digits with no point: 1.0 gives "1", 0.0 gives "0" |
| Decimal.TinyNegativeIsMinusZero | maat/core/canonical.py:17-19 | a negative float that rounds to zero at 15 places renders as "-0", because the formatter keeps the sign |
| Decimal.NegativeZeroIsMinusZero | maat/core/canonical.py:17-19 | negative zero renders as "-0" |
| Decimal.IntDigitsCanonical | maat/core/canonical.py:17 | the integer part printed has no leading zero unless it is "0" |
| Json.Get | maat/core/canonical.py:52 | a lookup succeeds exactly for keys the dict holds, and yields the value stored |
| Json.Set | maat/core/canonical.py:81 | `obj[k] = v`: the contents gain or replace k; an existing key keeps its position and a new key goes last |
| Json.Remove | maat/core/canonical.py:52-53 | the dict comprehension without `ukh`: exactly the other keys, with their values, in their order |
| Json.RemoveSet | maat/core/canonical.py:52-53 | dropping a key after setting it is the same as dropping it from the original |
| Json.SortedKeys | maat/core/canonical.py:36-38 | `sorted(d.keys())` is strictly increasing and lists exactly the dict's keys |
| Json.CanonKeepsScalars | maat/core/canonical.py:22-33 | `_canon_value` passes None, bool, int and str through, turns a float into its decimal string and anything else into its `str()`, keeps list lengths and dict key sets |
| Json.CanonIsCanonical | maat/core/canonical.py:22-38 | canonicalising yields a value with no floats and no foreign objects whose dicts have strictly sorted keys at every level |
| Json.CanonOfCanonical | maat/core/canonical.py:22-38 | a value already in canonical shape is left unchanged |
| Json.CanonIdempotent | maat/core/canonical.py:22-38 | canonicalising twice is canonicalising once |
| Json.CanonOrderFree | maat/core/canonical.py:22-38 | two values with the same contents, whatever the insertion order of the dicts inside, canonicalise identically |
| JsonWriter.EscapeChar | maat/core/canonical.py:54 | `json.dumps` with `ensure_ascii=False` leaves a character as it is exactly when it is not a quote, a backslash or a control character; otherwise it writes an escape starting with a backslash |
| JsonWriter.CanonicalIsDumpable | maat/core/canonical.py:54 | every canonical value can be serialised: every dict in it has string keys matching its contents |
| JsonWriter.DumpNoNewline | maat/core/canonical.py:54 | the compact serialisation contains no newline and no carriage return, so a record fills exactly one ledger line |
| JsonWriter.DumpOrderFree | maat/core/canonical.py:54 | with `sort_keys=True` two dicts with the same contents serialise to the same text, whatever their insertion order |
| JsonReader.SkipWs | maat/core/canonical.py:113 | `json.loads` skips only leading whitespace: the rest is a suffix that starts with non-whitespace |
| JsonReader.ParseValue | maat/core/canonical.py:113 | every successful parse step consumes input, so parsing terminates |
| JsonReader.FromPairs | maat/core/canonical.py:113 | a parsed object is a dict whose order lists each key once, the last occurrence winning |
| JsonRoundTrip.EscapeReadsBack | maat/core/canonical.py:54 | the string parser reads an escaped string back to the original and leaves the input that follows it |
| JsonRoundTrip.IntReadsBack | maat/core/canonical.py:54 | an integer's decimal text reads back as that integer |
| JsonRoundTrip.ListReadsBack | maat/core/canonical.py:54 | a serialised list whose items read back reads back itself |
| JsonRoundTrip.DictReadsBack | maat/core/canonical.py:54 | a serialised dict with sorted keys whose values read back reads back itself, in the same key order |
| JsonRoundTrip.ValueReadsBack | maat/core/canonical.py:54 | every canonical value's serialisation parses back to that value, whatever delimiter follows |
| JsonRoundTrip.LoadsDump | maat/core/canonical.py:54 | `json.loads(json.dumps(v)) == v` for every canonical value |
| JsonRoundTrip.LoadsLine | maat/core/canonical.py:97 | the written line, newline included, parses back to the value |
| Ledger.HexDigest | maat/core/canonical.py:68 | `hexdigest()` writes two lowercase hex digits per byte |
| Ledger.HexDigestReadsBack | maat/core/canonical.py:68 | the hex text decodes back to the digest bytes |
| Ledger.HexDigestInjective | maat/core/canonical.py:68 | two digests with the same hex text are the same digest |
| Ledger.Serialised | maat/core/canonical.py:52-53 | the dict `canonical_json` serialises: every key of the input but `ukh` when it is excluded, each with its own value |
| Ledger.CanonicalJsonReadsBack | maat/core/canonical.py:41-54 | the canonical text is one line starting with "{" and parses back to the canonical form of the serialised dict |
| Ledger.CanonicalJsonOrderFree | maat/core/canonical.py:41-54 | dicts with the same contents in different insertion orders have the same canonical JSON |
| Ledger.CanonicalJsonIgnoresUkh | maat/core/canonical.py:52-54 | with `exclude_ukh` the canonical JSON is the same whether `ukh` is absent or holds any value |
| Ledger.ComputeUkh | maat/core/canonical.py:57-68 | the hash is 64 lowercase hex characters |
| Ledger.UkhIgnoresUkh | maat/core/canonical.py:52-68 | `compute_ukh` is the same whether `ukh` is absent or holds any value |
| Ledger.UkhOrderFree | maat/core/canonical.py:57-68 | the hash depends only on the dict's contents, not on its insertion order |
| Ledger.Stamp | maat/core/canonical.py:71-82 | `add_ukh` sets `ukh` to the hash of the dict as it was, keeps every other entry, and keeps the key order, adding `ukh` last when new |
| Ledger.StampSeals | maat/core/canonical.py:71-82 | a stamped dict carries the hash of its own contents: recomputing the hash confirms the stamp |
| Ledger.StampKeeps | maat/core/canonical.py:81 | stamping changes no key but `ukh` |
| Ledger.StampIdempotent | maat/core/canonical.py:71-82 | a second `add_ukh` changes nothing: neither `ukh` nor any other field nor the key order |
| Ledger.JsonDict.AddUkh | maat/core/canonical.py:71-82 | mutates the dict in place to its stamped form and returns the same object |
| Ledger.UniversalNoCr | maat/core/canonical.py:112 | reading in text mode changes nothing in a file without carriage returns |
| Ledger.LinesConcat | maat/core/canonical.py:113 | iterating over a file cuts it into lines that put back together give the text; each line is non-empty with no newline before its end, and every line but the last ends in a newline |
| Ledger.LinesOfConcat | maat/core/canonical.py:113 | a text made of newline-terminated lines is iterated as exactly those lines |
| Ledger.ReadLinesAll | maat/core/canonical.py:113 | when every line is non-blank and parses, `read_jsonl` returns their values in file order |
| Ledger.LineReadsBack | maat/core/canonical.py:97 | the line `append_jsonl` writes ends in its only newline, is not blank, has no carriage return, and parses to the canonical form of the record, `ukh` included |
| Ledger.LedgerTextSnoc | maat/core/canonical.py:96-97 | appending a record adds exactly its line at the end of the file and leaves the earlier text unchanged |
| Ledger.ReadLedger | maat/core/canonical.py:100-113 | reading a ledger gives back every record appended to it, in append order, each in canonical form |
| Ledger.AppendedRecords | maat/core/canonical.py:85-97 | appending to one file adds that record at its end and leaves every other file's records alone |
| Ledger.HoldsAppend | maat/core/canonical.py:85-97 | appending a record's line keeps every file holding exactly the lines of its records |
| Ledger.Store.constructor | maat/core/canonical.py:85-113 | a new store has no files and no records |
| Ledger.Store.AppendJsonl | maat/core/canonical.py:85-97 | stamps the dict in place only when it has no `ukh`, then adds its canonical line, `ukh` included, to the end of that one file; the store stays consistent |
| Ledger.Store.ReadJsonl | maat/core/canonical.py:100-113 | returns `[]` for a missing file, otherwise the canonical form of every record appended, in order |
| Text.SortStrings | maat/core/canonical.py:38 | `sorted` returns an ordered permutation of the keys: sorted, the same multiset, the same length |
| Text.SortStringsPermutation | maat/core/canonical.py:38 | two key lists with the same distinct elements sort to the same sequence, whatever their order |
| Text.StrictlySortedUnique | maat/core/canonical.py:38 | two strictly sorted sequences holding the same strings are equal |
| Text.StrLessTotal | maat/core/canonical.py:38 | the order `sorted` uses is total: of two different strings one is smaller |
| Text.StrLessTransitive | maat/core/canonical.py:38 | the order `sorted` uses is transitive |
| Text.StripShape | maat/core/canonical.py:113 | `str.strip()` leaves no whitespace at either end, and the result is empty exactly when the text was all whitespace |
| Text.JoinSplit | maat/engine/generator.py:127 | splitting on a separator and joining the parts with it gives back the text |
| Text.SplitJoin | maat/engine/generator.py:127 | joining parts that do not contain the separator and splitting again gives back the parts |
| Text.NatToStringValue | maat/core/records.py:129 | the decimal digits of a count read back as that count, with no leading zero |
| Records.GenId | maat/core/records.py:17-19 | `gen_id(p)` is p, "_" and 16 lowercase hex characters |
| Records.GenIdInjective | maat/core/records.py:17-19 | two ids with the same prefix are equal exactly when the first 16 hex digits of their uuids are |
| Records.ObservationWF | maat/core/records.py:22-42 | an observation is a well-formed dict whenever its fields and meta are |
| Records.ObservationFields | maat/core/records.py:22-42 | an observation has `spec` "AGL/1.0", `schema` "AGL/Observation", the timestamp, an `obs_` id, the source, the fields, and the meta or `{}` when none or an empty one is given |
| Records.HypothesisWF | maat/core/records.py:45-70 | a hypothesis is a well-formed dict whenever its prior is |
| Records.HypothesisFields | maat/core/records.py:45-70 | a hypothesis has the AGL/Hypothesis stamp, a `hyp_` id, its hemisphere, claim and `from` ids, the prior or Beta(a="1", b="1") by default, and empty `rules` and `windows` |
| Records.HypothesisOfFields | maat/core/records.py:59-70 | the same for a hypothesis with its id and prior given |
| Records.TestWF | maat/core/records.py:73-99 | a test is a well-formed dict whenever its design and metrics are |
| Records.TestFields | maat/core/records.py:73-99 | a test has the AGL/Test stamp, a `tst_` id, the hypothesis id, the design or the rolling/0.2 default, the metrics or the three default ones, and the fixed power |
| Records.EvidenceWF | maat/core/records.py:102-145 | an evidence record is a well-formed dict |
| Records.EvidenceFields | maat/core/records.py:120-125 | an evidence record has the AGL/Evidence stamp, the test and hypothesis ids, and no `id` |
| Records.EvidenceScores | maat/core/records.py:126-144 | the posterior is Beta with `a` the digits of 1+successes, `b` those of 1+failures and `mean` the rendered posterior mean; `multi_scale.T` equals `peak_mean`, the MDL bits are rendered, and both residuals are "0" |
| Records.EvidenceOfPosterior | maat/core/records.py:126-133 | the posterior entries hold the rendered strings given |
| Records.EvidenceOfScores | maat/core/records.py:134-144 | the coherence, MDL and residual entries hold the rendered strings given, `T` equal to `peak_mean` |
| Records.Rendered | maat/core/records.py:177 | the attention dict keeps its keys in order and renders every value with `_decimal_string` |
| Records.SlotDecisionWF | maat/core/records.py:148-179 | a slot decision is a well-formed dict |
| Records.SlotDecisionFields | maat/core/records.py:165-179 | a slot decision has the AGL/SlotDecision stamp, the hypothesis and test ids, the decision and the reasons |
| Records.SlotDecisionScores | maat/core/records.py:171-177 | the three gate thresholds are rendered with `_decimal_string`, and the attention keeps its keys, each value rendered |
| Records.ReceiptWF | maat/core/records.py:182-208 | a receipt is a well-formed dict |
| Records.ReceiptFields | maat/core/records.py:198-208 | a receipt has the AGL/Receipt stamp and copies `slot_id`, `status`, `hyp`, `evid`, `decision_ukh` and `note` verbatim |
| Gates.DecisionNameInjective | maat/slot/gates.py:124-129 | the three decision names, and the receipt statuses made by adding "ed", tell the decisions apart |
| Gates.CountAboveAll | maat/slot/gates.py:50 | every sample counts as a success exactly when all of them lie strictly above the threshold |
| Gates.BayesianUpdateCounts | maat/slot/gates.py:46-58 | an empty series gives (0, 0, a/(a+b)); otherwise successes count the samples strictly above the mean; successes and failures add up to n; and the posterior mean is (a+s)/(a+b+n) |
| Gates.BayesianUpdateFails | maat/slot/gates.py:49-51 | a non-empty series always has at least one failure: not every sample can lie above the mean |
| Gates.BayesianUpdateRange | maat/slot/gates.py:46-58 | with positive prior counts the posterior mean lies strictly between 0 and 1 |
| Gates.BayesianUpdateExample | maat/slot/gates.py:46-58 | the series 1..5 with the uniform prior gives 2 successes, 3 failures and posterior mean 3/7 |
| Gates.AttentionMetrics | maat/slot/gates.py:61-95 | an empty series gives all zeros; otherwise novelty, chaos and risk lie in [0, 1], risk is zero exactly when the MDL bits are not negative, coherence is at most 1 and not negative for a non-negative score, and attention lies strictly between 0 and 1 |
| Gates.Risk | maat/slot/gates.py:85-86 | the risk lies in [0, 1] and is zero exactly when the MDL bits are not negative |
| Gates.Novelty | maat/slot/gates.py:79 | novelty lies in [0, 1) |
| Gates.EvaluateGates | maat/slot/gates.py:98-131 | "accept" if and only if all three gates pass; "reject" if and only if neither the Bayes nor the coherence gate passes, so the MDL gate alone never avoids rejection; "defer" in every other case; the reasons are the three lines for these figures |
| Gates.Reasons | maat/slot/gates.py:118-121 | there are always exactly three reasons |
| Gates.ReasonsReportGates | maat/slot/gates.py:118-121 | the reasons come in the order bayes, coherence, mdl, and each states ">=" or "<" (for mdl "<=" or ">") exactly as its gate passed or failed |
| Gates.GateExamples | maat/slot/gates.py:114-129 | with thresholds (0.7, 7.0, -5.0): (0.85, 10, -8) is accepted, (0.3, 2, 5) rejected, (0.75, 5, 2) deferred |
| Gates.TestRecord | maat/slot/gates.py:177 | the test record is well formed and sealed with its own hash |
| Gates.TestRecordFields | maat/slot/gates.py:177 | the test record is an AGL/Test with a `tst_` id for the hypothesis |
| Gates.EvidenceRecordFields | maat/slot/gates.py:180-184 | the evidence record is an AGL/Evidence for that test and hypothesis |
| Gates.DecisionRecordFields | maat/slot/gates.py:193-208 | the decision record is an AGL/SlotDecision for that hypothesis and test, carrying the decision name and the reasons |
| Gates.DecisionRecordSnapshot | maat/slot/gates.py:193-199 | the decision record renders the thresholds it was given |
| Gates.ReceiptRecordFields | maat/slot/gates.py:211-218 | the receipt has `slot_id` "slot_"+hemi, status decision+"ed" ("defer" gives "defered"), the hypothesis, the two hashes it cites, and note "hemi="+hemi |
| Gates.DecidedLinks | maat/slot/gates.py:172-208 | in one decision the evidence and the decision cite the test's id, and all four records name the same hypothesis |
| Gates.DecidedVerdict | maat/slot/gates.py:172-213 | the decision record holds the verdict and reasons of `evaluate_gates` on the default Bayesian update, the coherence and the MDL bits of the series, and the receipt's status is that verdict plus "ed" |
| Gates.DecidedReceipt | maat/slot/gates.py:211-218 | the receipt cites exactly the `ukh` of the evidence record and that of the decision record |
| Gates.DecidedSnapshot | maat/slot/gates.py:193-199 | the decision record snapshots the slot's thresholds at call time |
| Gates.DecidedSealed | maat/slot/gates.py:177-218 | all four records are stamped with their own hash before anything is written |
| Gates.Slot.constructor | maat/slot/gates.py:140-158 | a slot keeps its name, hemisphere, thresholds and three ledger paths as given |
| Gates.Slot.Record | maat/slot/gates.py:160-225 | builds the records of `decide` for the given readings, uuid and thresholds, and appends the evidence, decision and receipt in that order |
| Gates.Slot.Log | maat/slot/gates.py:221-223 | appends exactly the evidence, the decision and the receipt to their ledgers, in that order, keeping the store valid |
| Gates.Slot.Decide | maat/slot/gates.py:160-225 | returns the test, evidence and decision records of one decision, drawing four clock readings and one uuid, and appends exactly the evidence, the decision and the receipt to the evidence, decisions and receipts ledgers, in that order; the test record is not appended |
| Engine.ObservationRecordFields | maat/engine/maat.py:63 | the cycle's observation is an AGL/Observation with an `obs_` id, the source, and fields `{"x": series}` |
| Engine.ObservationRecord | maat/engine/maat.py:63 | the observation is well formed and stamped with its own hash before it is appended |
| Engine.AcceptedIff | maat/engine/maat.py:76 | a decision record's `decision` equals "accept" exactly when the verdict is Accept |
| Engine.DecidedStates | maat/engine/maat.py:73-77 | the decision record of a slot names the hypothesis and holds the gate verdict for the slot's thresholds |
| Engine.Consult | maat/engine/maat.py:73 | one `decide` as the engine uses it: returns the decision record holding the slot's verdict, and appends that decision's three records to the slot's ledgers |
| Engine.HypsCarry | maat/engine/maat.py:79-80 | every generated hypothesis carries a string id and a claim, so the result rows can be read from it |
| Engine.Maat.GenerateHypotheses | maat/engine/maat.py:37-49 | hypotheses come from the configured generator with hemisphere "R" and the given observation ids; the LLM adapter's state advances as the generator step says |
| Engine.Maat.Observe | maat/engine/maat.py:62-64 | appends exactly one observation, stamped, to the observations ledger, and changes no generator state |
| Engine.Maat.JudgeOne | maat/engine/maat.py:71-90 | R decides first; L decides the same hypothesis only when R's decision is "accept"; the row holds the id, the claim, R's verdict, and L's verdict or "n/a" |
| Engine.Maat.Callosum | maat/engine/maat.py:75-90 | after R's decision: L's records are appended exactly when R accepted, otherwise the ledgers are untouched and L is reported "n/a" |
| Engine.Maat.Judge | maat/engine/maat.py:69-90 | one row per hypothesis, in generation order; each hypothesis leaves R's records and then, only after an R accept, L's |
| Engine.Maat.Cycle | maat/engine/maat.py:51-96 | appends the observation before any decision; generates from `[obs id]` with hemisphere "R"; returns the observation's id, the source and one row per hypothesis, in order; the ledgers end as the observation followed by each hypothesis's R and, after an R accept, L records |
| Engine.Maat.Propose | maat/engine/maat.py:66-90 | generating and judging after the observation: the rows and ledger effects of `cycle` for the given observation id |
| Engine.CycleDecisions | maat/engine/maat.py:51-96 | after a cycle R's decisions ledger has grown by exactly one decision per hypothesis, each stating R's verdict; L's has grown by one per hypothesis when R accepted and by none otherwise, each stating L's verdict |
| Engine.CycleTallies | maat/engine/maat.py:51-96 | after a cycle R's count of each verdict grows by the number of hypotheses for R's verdict and by 0 for the others; L's grows only when R accepted, and then only for L's verdict |
| Engine.ReplayedDecisions | maat/engine/maat.py:71-90 | the decision records a run of hypotheses leaves: R's decisions ledger gains R's decisions in order, L's gains L's decisions for the hypotheses L judged |
| Engine.LDecisionsFit | maat/engine/maat.py:76-90 | L judges every hypothesis when R's verdict is Accept and none otherwise, and each of its decisions states L's verdict |
| Engine.Maat.GetStats | maat/engine/maat.py:98-133 | the statistics are computed from the canonical records of the two decisions ledgers, as read back |
| Engine.HemiStatsOf | maat/engine/maat.py:110-132 | `total` is the number of decisions; the accept, reject and defer counts add up to at most the total; `accept_rate` lies in [0, 1] and times the total is the accept count |
| Engine.Rate | maat/engine/maat.py:124 | `accept_rate` is accepts/total, or 0.0 for an empty ledger, and lies in [0, 1] |
| Engine.CountVerdict | maat/engine/maat.py:110-116 | a verdict's count never exceeds the number of records |
| Engine.CountsBounded | maat/engine/maat.py:110-116 | no record is counted under two verdicts, so the three counts add up to at most the total |
| Engine.CountReadBack | maat/engine/maat.py:107-116 | counting `d.get("decision")` over the records read back gives the number of records appended with that decision |
| Engine.CountUniform | maat/engine/maat.py:110-116 | when every record states one verdict, its count is the number of records and every other verdict's count is 0 |
| Engine.CountConcat | maat/engine/maat.py:110-116 | counts over a ledger that has grown are the old counts plus the counts over the new records |
| Engine.CreateMaatEngine | maat/engine/maat.py:136-182 | the slots are named "R" and "L" with hemispheres "R" and "L"; ledgers are `<outdir>/<name>_<kind>.jsonl`; thresholds are the given ones or R (0.80, 7.5, -8.0) and L (0.95, 8.5, -16.0); the generator is the given one or the programmatic one |
| Engine.DefaultPathsSeparate | maat/engine/maat.py:161-169 | the seven default ledger paths are pairwise different, so no two ledgers of an engine share a file |
| Engine.StricterGates | maat/slot/gates.py:114-129 | with thresholds at least as strict on every gate, an accept by the stricter slot is an accept by the looser one, and a reject by the looser one is a reject by the stricter one |
| Engine.DefaultsNested | maat/engine/maat.py:156-159 | the default L thresholds are strictly stricter than R's on all three gates, so L never accepts what R would not |
| Generator.HypRecord | maat/engine/generator.py:53 | a generated hypothesis record is well formed and sealed with its own hash |
| Generator.HypRecordFields | maat/engine/generator.py:53 | the record is an AGL/Hypothesis with a `hyp_` id, the claim, the hemisphere and the observation ids it came from |
| Generator.HypRecords | maat/engine/generator.py:51-56 | one record per claim |
| Generator.HypRecordsCarry | maat/engine/generator.py:144-149 | the i-th record is sealed and carries the i-th claim, the hemisphere, the observation ids and the id made from the i-th uuid drawn |
| Generator.MakeHypotheses | maat/engine/generator.py:144-149 | the records are those of the claims in order, one clock reading and one uuid drawn per claim |
| Generator.ProgrammaticClaims | maat/engine/generator.py:32-49 | no claim for an empty series, otherwise exactly three |
| Generator.ProgrammaticGenerate | maat/engine/generator.py:20-56 | the records of the mean, slope and coherence claims in that order (none for an empty series), one clock reading and one uuid per record |
| Generator.NonBlankKept | maat/engine/generator.py:81 | every line kept from the file is non-blank, stripped and holds no line break |
| Generator.FileLines | maat/engine/generator.py:79-81 | the file's kept lines are non-blank and stripped |
| Generator.LlmAdapter.constructor | maat/engine/generator.py:65-81 | keeps the callable, reads the kept lines of the file when one is given (none otherwise), and starts the index at 0 |
| Generator.ResponseServes | maat/engine/generator.py:93-108 | with file lines the response is the line at the index, wrapping to 0 past the end, and the new index lies in [1, number of lines]; without lines it is the callable's answer, or "" when there is none, and the index is untouched |
| Generator.RoundRobin | maat/engine/generator.py:94-101 | from a fresh adapter the k-th call answers with line k mod the number of lines, so the file is served round robin |
| Generator.LlmAdapter.CallLlm | maat/engine/generator.py:83-108 | returns the response and leaves the index as the round-robin step says |
| Generator.DropPrefixesKeeps | maat/engine/generator.py:136-138 | removing prefixes keeps a claim stripped and free of line breaks and commas |
| Generator.ClaimsClean | maat/engine/generator.py:124-141 | every claim parsed from any text is non-empty, stripped, and holds no line break and no comma |
| Generator.PrefixTriedOnce | maat/engine/generator.py:136-138 | a "- " bullet is removed once, and the rest is kept whole when it starts with no later prefix |
| Generator.PrefixListOrder | maat/engine/generator.py:136-138 | "1. " is removed from a numbered claim whose rest starts with neither "2. " nor "3. " |
| Generator.ExtractClaims | maat/engine/generator.py:124-141 | the claims collected by the line loop are those of every line, in text order |
| Generator.ExtractLine | maat/engine/generator.py:127-141 | a blank line gives no claim, any other gives those of its comma-separated pieces, in order |
| Generator.ExtractPieces | maat/engine/generator.py:132-141 | the claims of the pieces of a line, in order |
| Generator.CleanPiece | maat/engine/generator.py:133-141 | a piece is stripped, each prefix in list order is removed when it leads, and the claim is kept only if something is left |
| Generator.SeqMin | maat/engine/generator.py:168 | the minimum is an element of the series and no element is below it |
| Generator.SeqMax | maat/engine/generator.py:169 | the maximum is an element of the series and no element is above it |
| Generator.LlmAdapter.ParseHypotheses | maat/engine/generator.py:110-149 | one sealed record per parsed claim, in text order |
| Generator.LlmAdapter.Generate | maat/engine/generator.py:151-185 | no call and no records for an empty series; otherwise one call with the statistics prompt, and the records of the claims parsed from the response; the adapter's index moves as the call says |
| Generator.HybridChoice | maat/engine/generator.py:218-224 | the hybrid answers with the adapter's claims exactly when asked to use it, there is one, and it found any; otherwise with the programmatic claims; it comes back empty only for an empty series; without the adapter it changes nothing |
| Generator.HybridGenerator.Generate | maat/engine/generator.py:204-224 | the records of the hybrid's choice, and the adapter state the attempt leaves |
| Generator.HybridGenerator.Fallback | maat/engine/generator.py:224 | the programmatic records, with the adapter untouched |
| Generator.HybridGenerator.TryLlm | maat/engine/generator.py:218-219 | asks the adapter only with `use_llm` and an adapter present; otherwise no records and no change |
| Policy.LoosenBounds | maat/engine/policy.py:139-150 | loosening from thresholds inside the clamps stays inside them and moves each gate only looser: Bayes and coherence down, MDL up |
| Policy.TightenBounds | maat/engine/policy.py:152-163 | tightening stays inside the clamps and moves each gate only stricter |
| Policy.LoosenTightenInverse | maat/engine/policy.py:139-163 | when no clamp bites, tightening undoes a loosening by the same delta and loosening undoes a tightening |
| Policy.Push | maat/engine/policy.py:56-62 | appending to a bounded deque keeps its last `maxlen` elements: the new element is last and the oldest ones drop off the front |
| Policy.CountAtMost | maat/engine/policy.py:179-185 | the number of counted evidence records never exceeds the number of records |
| Policy.RegretRatio | maat/engine/policy.py:165-211 | regret is 0.0 when the queue or the evidence is empty, otherwise the number of matching evidence records that pass the kind's test divided by the queue's length |
| Policy.RegretNonNegative | maat/engine/policy.py:165-211 | regret is never negative |
| Policy.RegretCanExceedOne | maat/engine/policy.py:180-187 | the numerator counts evidence records, not hypotheses, so two poor-MDL records about one accepted hypothesis give regret 2.0, outside the documented [0, 1] |
| Policy.StartGood | maat/engine/policy.py:36-62 | the initial state (R defaults, empty history and queues, zero counters) satisfies the policy invariant |
| Policy.TrackAllBounded | maat/engine/policy.py:85-89 | tracking decisions keeps both queues within 50 entries |
| Policy.BandStepInRange | maat/engine/policy.py:112-122 | the acceptance-band adjustment keeps the thresholds inside the clamps |
| Policy.FixesInRange | maat/engine/policy.py:125-135 | the two regret adjustments keep the thresholds inside the clamps |
| Policy.AdjustedInRange | maat/engine/policy.py:112-135 | all adjustments together keep the thresholds inside the clamps |
| Policy.FinishKeeps | maat/engine/policy.py:96-137 | recording history and adjusting preserve the policy invariant |
| Policy.StepKeeps | maat/engine/policy.py:64-137 | every step preserves the invariant: thresholds inside the clamps, history within 100 entries, queues within 50 |
| Policy.StepRecords | maat/engine/policy.py:77-105 | a step tracks the decisions into the queues; on a failed conversion only the counter and the queues change; otherwise one history entry is appended holding the acceptance rate and the thresholds before the step |
| Policy.CooldownHolds | maat/engine/policy.py:107-109 | before the cooldown has passed a step returns the current thresholds and changes neither them nor the update count |
| Policy.CooldownPassed | maat/engine/policy.py:111-137 | after the cooldown a step returns the adjusted thresholds, the update count grows by the number of adjustments fired, and the cycle counter is reset exactly when one fired |
| Policy.AdjustRules | maat/engine/policy.py:111-135 | one adjustment fires for an acceptance rate outside the band and one per regret above 0.3; below the band it loosens, above it tightens, inside it keeps; a false-accept regret tightens by half a step after the band rule, a false-reject regret then loosens by half a step |
| Policy.LastN | maat/engine/policy.py:223 | the last twenty entries of the history, or all of them when there are fewer |
| Policy.ReportWindowed | maat/engine/policy.py:221-236 | the report's recent history is the last 20 entries, and its averages are 0.0 when the history is empty |
| Policy.ReportAverageBounded | maat/engine/policy.py:232 | with every recorded acceptance rate in [0, 1], the reported average acceptance rate lies in [0, 1] |
| Policy.LearnedGatesPolicy.constructor | maat/engine/policy.py:36-62 | the configuration as given, R's default thresholds, empty history and queues, and zero counters |
| Policy.LearnedGatesPolicy.Step | maat/engine/policy.py:64-137 | the new state and the returned thresholds are those of the step specification |
| Policy.LearnedGatesPolicy.FinishStep | maat/engine/policy.py:96-137 | records the history entry, then returns the thresholds unchanged before the cooldown has passed and the adjusted ones after it |
| Policy.LearnedGatesPolicy.Adjust | maat/engine/policy.py:111-135 | applies the band rule and the two regret rules, counting each one that fired and resetting the cycle counter when any did; history and queues unchanged |
| Policy.LearnedGatesPolicy.ApplyBand | maat/engine/policy.py:112-122 | loosens below the band, tightens above it, and counts the update |
| Policy.LearnedGatesPolicy.ApplyAcceptFix | maat/engine/policy.py:125-129 | tightens by half a step when the false-accept regret is above 0.3, and counts it |
| Policy.LearnedGatesPolicy.ApplyRejectFix | maat/engine/policy.py:131-135 | loosens by half a step when the false-reject regret is above 0.3, and counts it |
| Policy.LearnedGatesPolicy.TrackDecisions | maat/engine/policy.py:85-89 | "accept" decisions push their `hyp` onto the accepted queue, "reject" decisions onto the rejected queue, others are skipped; nothing else changes |
| Policy.LearnedGatesPolicy.ComputeRegret | maat/engine/policy.py:165-211 | the regret of the kind's queue over the evidence, stopping at the first record whose number cannot be converted |
| Policy.LearnedGatesPolicy.LoosenThresholds | maat/engine/policy.py:139-150 | the thresholds become the loosened ones; nothing else changes |
| Policy.LearnedGatesPolicy.TightenThresholds | maat/engine/policy.py:152-163 | the thresholds become the tightened ones; nothing else changes |
| Policy.CountStops | maat/engine/policy.py:183 | once one record's number cannot be converted, the rest of the evidence is never read |
| Reactor.Inserted | maat/reactor/reactor.py:22-24 | insertion caps the depth at 1.0, and from a depth in [0, 1] by a non-negative amount never moves the rod out |
| Reactor.Withdrawn | maat/reactor/reactor.py:26-28 | withdrawal floors the depth at 0.0, and from a depth in [0, 1] never moves the rod in |
| Reactor.ControlRod.constructor | maat/reactor/reactor.py:16-20 | a rod starts fully withdrawn, at depth 0.0 |
| Reactor.ControlRod.Insert | maat/reactor/reactor.py:22-24 | the new depth is the capped insertion |
| Reactor.ControlRod.Withdraw | maat/reactor/reactor.py:26-28 | the new depth is the floored withdrawal |
| Reactor.Trunc | maat/reactor/reactor.py:57 | `int()` truncates toward zero, for negative as for positive arguments |
| Reactor.Moderated | maat/reactor/reactor.py:44-57 | the moderated count is at least 1, never above a positive base count while the rods are in [0, 1], and equal to it when the three damping rods are withdrawn |
| Reactor.ScaleAtMost | maat/reactor/reactor.py:57 | scaling a count by a factor in [0, 1] gives a value between 0 and the count |
| Reactor.AutoAdjustKeeps | maat/reactor/reactor.py:59-77 | auto-adjustment never moves the reality anchor, keeps rods in [0, 1], and leaves the rods alone when all three gauges are in their normal ranges |
| Reactor.AutoAdjustDirections | maat/reactor/reactor.py:59-77 | high temperature inserts the resource governor, high criticality inserts the damper, filter and governor no further out, low criticality withdraws damper and governor unless another gauge pushes them in, and only high criticality moves the semantic filter |
| Reactor.ReactorControl.constructor | maat/reactor/reactor.py:31-42 | four distinct rods at depth 0.0 and all gauges at 0.0 |
| Reactor.ReactorControl.ModerateGeneration | maat/reactor/reactor.py:44-57 | the moderated count for the current rod positions |
| Reactor.ReactorControl.Observe | maat/reactor/reactor.py:223-229 | stores the new temperature and pressure, auto-adjusts against the criticality of the previous cycle, then records the new criticality |
| Reactor.ReactorControl.InsertAll | maat/reactor/reactor.py:258-262 | SCRAM drives damper, governor and filter to depth 1.0 and leaves the anchor |
| Reactor.ReactorControl.AutoAdjust | maat/reactor/reactor.py:59-77 | the rods end at the auto-adjusted positions for the current gauges |
| Reactor.ShouldScram | maat/reactor/reactor.py:97-112 | a disabled SCRAM never fires; an enabled one fires exactly when criticality or temperature is above its limit or reality correlation below its limit, with absent readings taken as 0, 0 and 1.0 |
| Reactor.ScramExamples | maat/reactor/reactor.py:89-112 | with the default limits (1.8, 0.95, 0.05): nominal readings do not fire, each single breach fires, and an empty state does not fire |
| Reactor.Tail | maat/reactor/reactor.py:187 | Python's `s[-n:]`: the whole list for n = 0, otherwise its last n elements |
| Reactor.Zeros | maat/reactor/reactor.py:190 | `[0.0] * n`: n zeros, none for a negative n |
| Reactor.AcceptSignal | maat/reactor/reactor.py:186-187 | one sample per receipt, 1.0 exactly for an "accepted" status |
| Reactor.Smoothed | maat/reactor/reactor.py:193-199 | the smoothed series has one sample per input sample |
| Reactor.SmoothedInBox | maat/reactor/reactor.py:193-199 | exponential smoothing of samples in [0, 1] stays in [0, 1] |
| Reactor.MetaSeriesShape | maat/reactor/reactor.py:172-199 | with no receipts, min(4, window) zeros; otherwise one sample per receipt in the window; every sample lies in [0, 1] |
| Reactor.OuterSeries | maat/reactor/reactor.py:172-199 | the loop computes the meta-series of the inner receipts |
| Reactor.Accepts | maat/reactor/reactor.py:239-242 | the accept count of the last three decisions is at most their number |
| Reactor.Criticality | maat/reactor/reactor.py:239-243 | criticality `(outer + 1) / (inner + 1)` over the last three decisions of each lies in [0.25, 4] |
| Reactor.RatioRange | maat/reactor/reactor.py:243 | a ratio of two whole numbers in [1, 4] lies in [0.25, 4] |
| Reactor.RealityCorr | maat/reactor/reactor.py:246-248 | reality correlation lies in [0, 1] and is 1.0 exactly when the two means agree |
| Reactor.Temperature | maat/reactor/reactor.py:225 | temperature is at most 1.0, and not negative for a non-negative elapsed time |
| Reactor.Pressure | maat/reactor/reactor.py:226 | pressure lies in [0, 1] and is 1.0 exactly when the meta-series has at least 32 samples |
| Reactor.StepProperties | maat/reactor/reactor.py:201-280 | a cycle reports the rods it leaves and its own number; rods stay in [0, 1] with the anchor untouched; criticality lies in [0.25, 4], reality correlation and pressure in [0, 1]; the status is "SCRAM" exactly when SCRAM fires, and then the three rods are fully inserted; otherwise "OK" |
| Reactor.ResultsSnoc | maat/reactor/reactor.py:292-299 | appending a cycle's result keeps the results numbered in order, all "OK" but possibly the last |
| Reactor.RecursiveMaat.constructor | maat/reactor/reactor.py:123-145 | default SCRAM, fresh rods at 0.0, zero criticality and a cycle count of 0 |
| Reactor.RecursiveMaat.Cycle | maat/reactor/reactor.py:201-280 | the cycle count grows by one; the result and the rods are those of the cycle step for this cycle's readings; the stored criticality is the one reported |
| Reactor.RecursiveMaat.Run | maat/reactor/reactor.py:282-301 | the results, the rods left and the stored criticality are exactly the run fold (`RunSpec`) of the cycle step from the old rods, criticality and cycle count; the cycle count grows by the number of results; and at most `cycles` results, numbered consecutively, every one "OK" but the last, with an early stop only on "SCRAM" |
| Reactor.RunSpecStep | maat/reactor/reactor.py:292-299 | one more cycle of a run: a SCRAM result ends it with that result and its rods, an "OK" result carries the run on from the rods and criticality it leaves |
| Reactor.RunSpecProperties | maat/reactor/reactor.py:282-301 | for any cycle step that keeps the rods in [0, 1] and numbers its result: a run keeps the results it started from, adds at most `cycles` more numbered on from the cycle count, all "OK" but the last, stops early only on "SCRAM", and leaves the last result's rods, in [0, 1], with the anchor unmoved |
| Reactor.CycleOfKeeps | maat/reactor/reactor.py:201-280 | every cycle of the reactor keeps the rods in [0, 1] with the anchor unmoved, reports the rods it leaves and its own number, and reports "OK" or "SCRAM" |
| Reactor.CycleOfIs | maat/reactor/reactor.py:201-280 | the reactor's cycle numbered n is the cycle step on the n-th readout of the world |
| Causal.AddEdgeAcyclic | maat/engine/causal.py:40-47 | adding an edge whose source is not reachable from its target keeps the graph acyclic |
| Causal.AcyclicNoSelfLoop | maat/engine/causal.py:3 | an acyclic edge set has no self-loop |
| Causal.AcyclicSubset | maat/engine/causal.py:150-151 | removing edges keeps a graph acyclic |
| Causal.ClosedUnreachable | maat/engine/causal.py:61-78 | a node outside a set closed under the edges cannot be reached from inside it |
| Causal.Clamp01 | maat/engine/causal.py:45 | the clamped weight lies in [0, 1], equals the weight when that is in [0, 1], and is 0 below and 1 above |
| Causal.EmptyInv | maat/engine/causal.py:16-20 | the empty graph is acyclic with all weights in [0, 1] and every edge between known nodes |
| Causal.AddEdgeKeeps | maat/engine/causal.py:26-47 | `add_edge` keeps the graph acyclic with weights in [0, 1], and both endpoints are nodes afterwards, whether or not the edge was added |
| Causal.SelfLoopRefused | maat/engine/causal.py:40-42 | a self-loop is always refused: the node is added, the pair is blocked, edges are unchanged, and the call returns False |
| Causal.ExistingEdgeReweighted | maat/engine/causal.py:44-47 | re-adding an existing edge of an acyclic graph stores the clamped new weight and returns True |
| Causal.AllowPredictsAdd | maat/engine/causal.py:80-108 | between known nodes, an allowed input makes `add_edge` succeed, and a disallowed one that is not blocked makes it fail |
| Causal.LearnKeeps | maat/engine/causal.py:133-151 | one learning step keeps the graph invariant |
| Causal.LearnAllKeeps | maat/engine/causal.py:133-151 | the whole loop over the inputs keeps the graph invariant |
| Causal.OtherStatusNoOp | maat/engine/causal.py:130-151 | a status other than "accepted" or "rejected" leaves the graph unchanged |
| Causal.LearnTouchesOneEdge | maat/engine/causal.py:133-151 | a learning step changes no other edge's presence or weight, and adds at most its own endpoints and its own blocked pair |
| Causal.AcceptedRaises | maat/engine/causal.py:136-140 | "accepted" sets the edge to min(1, w + inc), with w = 0.5 for an absent edge, unless the edge would close a cycle |
| Causal.RejectedLowers | maat/engine/causal.py:142-151 | "rejected" sets the edge to max(0, w - dec) when that is positive and no cycle arises, and removes it when it reaches 0 |
| Causal.PruneKeeps | maat/engine/causal.py:153-166 | pruning keeps the graph invariant |
| Causal.PruneExact | maat/engine/causal.py:160-166 | pruning removes exactly the edges lighter than the threshold, keeps the others' weights, and leaves nodes and blocked pairs alone |
| Causal.PruneIdempotent | maat/engine/causal.py:153-166 | pruning twice with one threshold is the same as pruning once |
| Causal.ChosenCard | maat/engine/causal.py:178-179 | a list of distinct edges names as many edges as it has entries |
| Causal.TopKAll | maat/engine/causal.py:168-179 | with k at least the number of edges, `top_k` lists every edge |
| Causal.TopDone | maat/engine/causal.py:178-179 | a selection built heaviest-first, once it holds as many entries as the slice keeps, is a valid `top_k` result |
| Causal.LoadEdgeItems | maat/engine/causal.py:200-204 | reading back the exported edge entries gives the edge map |
| Causal.LoadBlockedItems | maat/engine/causal.py:207-210 | reading back the exported blocked entries gives the blocked set |
| Causal.NamesOfNodeItems | maat/engine/causal.py:197 | reading back the exported node list gives the node names |
| Causal.LoadDictOf | maat/engine/causal.py:195-210 | `from_dict` of an exported dict gives the graph of its nodes, edges and blocked pairs, with no error |
| Causal.RoundTrip | maat/engine/causal.py:181-210 | `from_dict(to_dict())` restores the graph, whatever the iteration order and whatever state it is loaded into |
| Causal.CausalGraph.constructor | maat/engine/causal.py:16-20 | a new graph has no nodes, edges or blocked pairs |
| Causal.CausalGraph.AddNode | maat/engine/causal.py:22-24 | adds the name to the nodes, nothing else changes |
| Causal.CausalGraph.WouldCreateCycle | maat/engine/causal.py:49-78 | the depth-first search answers true exactly when the source is reachable from the target, the source itself included |
| Causal.CausalGraph.AddEdge | maat/engine/causal.py:26-47 | both endpoints become nodes; when the edge would close a cycle the pair is blocked and the call returns False, otherwise the clamped weight is stored and it returns True |
| Causal.CausalGraph.Allow | maat/engine/causal.py:80-108 | true when any input or the target is unknown; otherwise false exactly when some input's edge is blocked, or absent and cycle-closing |
| Causal.CausalGraph.UpdateFromReceipt | maat/engine/causal.py:110-151 | fails exactly when the hypothesis's meta cannot be read; without inputs or target nothing changes; otherwise every input's edge to the target is learned, in input order |
| Causal.CausalGraph.LearnOne | maat/engine/causal.py:133-151 | one pass of the learning loop for one input |
| Causal.CausalGraph.Prune | maat/engine/causal.py:153-166 | the graph becomes the pruned graph |
| Causal.CausalGraph.TopK | maat/engine/causal.py:168-179 | min(k, number of edges) entries (Python slice semantics for negative k), each a distinct edge with its weight, heaviest first, no edge left out heavier than one kept |
| Causal.CausalGraph.Heaviest | maat/engine/causal.py:178 | picks an edge of the remaining ones that no remaining edge outweighs |
| Causal.CausalGraph.ToDict | maat/engine/causal.py:181-193 | the export lists each node, each edge with its weight and each blocked pair exactly once |
| Causal.CausalGraph.FromDict | maat/engine/causal.py:195-210 | the graph afterwards and the error, if any, are those of the import specification |
| Causal.CausalGraph.ReadEdges | maat/engine/causal.py:199-204 | reads the edge entries into a fresh map, stopping at the first malformed entry; nodes and blocked pairs unchanged |
| Causal.CausalGraph.ReadBlocked | maat/engine/causal.py:206-210 | reads the blocked entries into a fresh set, stopping at the first malformed entry; nodes and edges unchanged |
| Causal.CausalGraph.Children | maat/engine/causal.py:74-76 | the children pushed are exactly the unvisited targets of the node's edges |
| Decidability.Confidence | maat/slot/decidability_gate.py:17-19 | the confidence lies in [0, 1], is 0 exactly when no flag is set and 1 exactly when all four are |
| Decidability.ConfidenceWeights | maat/slot/decidability_gate.py:18-19 | the weighted sum is 0.4, 0.3, 0.2 and 0.1 for the self-reference, loop, paradox and halting flags that are set |
| Decidability.Classify | maat/slot/decidability_gate.py:31-46 | UNDECIDABLE exactly for paradox or self-reference with halting, and only then not decidable; otherwise EXPTIME exactly for loop or halting; P exactly when no flag is set and the claim has 1 to 139 characters; NP in every remaining case |
| Decidability.LengthBoundary | maat/slot/decidability_gate.py:39 | with no flag, 139 characters is P while 140 and 0 are NP; a lone self-reference flag gives NP |
| Decidability.ClaimOf | maat/slot/decidability_gate.py:23 | a string claim is read as is; reading fails exactly when the claim is truthy but not a string, which `.strip()` cannot take |
| Decidability.Test | maat/slot/decidability_gate.py:22-53 | `test` fails exactly when the claim cannot be read |
| Decidability.TestVerdict | maat/slot/decidability_gate.py:22-53 | the verdict classifies the flags found in the claim and evidence text by the length of the stripped claim alone, is decidable exactly when not UNDECIDABLE, and carries the confidence of those flags |
| Decidability.EvidenceOnlyThroughFlags | maat/slot/decidability_gate.py:23-29 | evidence that yields the same flags yields the same verdict: the evidence enters only through the pattern flags |
| Translation.Translate | maat/engine/translation.py:12-50 | translation fails exactly when the hypothesis has a `meta` that is not a dict |
| Translation.TranslateRecords | maat/engine/translation.py:13-48 | the copy's `meta.translation` records `from`, `to`, the fidelity and the rule of the table entry; an existing `meta` of the input gains the same entry, since the copy is shallow |
| Translation.VerifyFidelity | maat/engine/translation.py:52-54 | a missing `meta`, or a translation without a fidelity, gives 0.5 |
| Translation.FidelityRoundTrip | maat/engine/translation.py:12-54 | verifying a translation's fidelity returns the fidelity the translation stored |
| Translation.FidelityBounds | maat/engine/translation.py:18-48 | every fidelity lies in [0.6, 1.0], and it is 1.0 exactly for equal domains |
| Translation.SameDomain | maat/engine/translation.py:18-20 | for equal domains the claim is unchanged, no rule is set, and the fidelity is 1.0 |
| Translation.TableEntries | maat/engine/translation.py:22-48 | numeric to boolean: "threshold>0", its implication claim, 0.8; boolean to probabilistic 0.7; linguistic to logical: "predicate-wrap", `ASSERT(claim)`, 0.75; numeric to probabilistic 0.65; any other pair of different domains: "identity-fallback", claim unchanged, 0.6 |
| Translation.CopyKeepsOthers | maat/engine/translation.py:13-16 | every other top-level key of the hypothesis is kept in the copy; the claim is unchanged when the rule rewrites none; the input keeps all keys but `meta`, and shares `meta` with the copy |
| Translation.TranslateDict | maat/engine/translation.py:12-50 | on success returns a new dict holding the translated copy and updates the input's `meta` in place; on failure leaves the input untouched |
| Series.SumBounds | maat/engine/generator.py:35 | a sum of n values in [lo, hi] lies in [n * lo, n * hi] |
| Series.MeanBounds | maat/engine/generator.py:35 | the mean of values in [lo, hi] lies in [lo, hi] |
| Series.SumAbove | maat/slot/gates.py:49-51 | a sum of values all above m exceeds n * m |
| Runtime.Env.NowIso | maat/core/records.py:12-14 | each clock reading is the next one of the clock sequence |
| Runtime.Env.Uuid4 | maat/core/records.py:17-19 | each uuid drawn is the next one of the uuid sequence |

## Left out

- File system effects: directory creation, opening and closing files. The ledger files are a `Store` mapping each path to its text, with the records appended to it kept as ghost state.
- `outdir / name` path joining is written as joining with "/"; path normalisation is not modelled.
- BLAKE2b is a parameter (`Hasher`): a function from text to a 32-byte digest. Its collision resistance is not assumed anywhere.
- `datetime.now` and `uuid4` come from an `Env` object that hands out the next entry of a clock stream and of a uuid stream. The format of an ISO timestamp is not modelled.
- Floating-point arithmetic: the model computes with exact reals, and IEEE rounding of sums, means and divisions is not captured. `fft_peak_mean`, `mdl_delta_bits`, `_linear_fit_residuals` and `math.exp` are parameters (`Numerics`). The only facts assumed are those their code makes plain: no coherence below four samples, no MDL gain for an empty series, one residual per sample, and a positive `exp`.
- `json.loads` is modelled as CPython's scanner reads a document, with the one exception below. A line that is not a JSON document is a read failure (Python raises `JSONDecodeError`).
- JsonReader.ParseValue: a lone surrogate escape (`\ud800` or `\udc00` without its partner) is a read failure here (`JsonReader.ParseEscape`), where `json.loads` returns a one-character string. A Dafny `char` cannot hold a lone surrogate. `append_jsonl` can never write such a line, because encoding it as UTF-8 raises, so only ledger lines written by other means are affected.
- The engine's random generator, seeded from `hash(name)`, is never drawn from, so it and the `seed` parameter of `create_maat_engine` are left out.
- `RecursiveMAAT._next_external` (a noisy sine signal from `random`) and the wall-clock `time.time()` are left out. The reactor reads each cycle's external series, elapsed time, and the inner and outer ledgers from a `world` stream given at construction. This over-approximates the two engines' `cycle` calls: the model does not tie those ledgers to the engines' own contracts.
- Reactor: the `print` on SCRAM in `run` is output only and is left out.
- Reactor.ReactorControl: `get_state` is modelled as the `Positions()` value; the rod names are not part of it.
- Policy: `save`/`load` and `get_thresholds_dict` are file and dict plumbing and are left out. `get_report` is modelled as the `Report` value.
- Policy.LearnedGatesPolicy.Step: the metrics dict is a `Metrics` value with the three keys present. Python's `.get` defaults for missing keys (0.0 and empty lists) are not modelled.
- Causal: `save`/`load` (JSON file I/O around `to_dict`/`from_dict`) and `get_stats` are left out.
- Causal.CausalGraph.TopK: Python's stable sort puts equal weights in dict insertion order; the model allows any order among equal weights.
- Causal.CausalGraph.UpdateFromReceipt: node names and a target that are not strings are reported as failures; Python would accept any hashable value.
- Causal.CausalGraph.FromDict: weights that are not finite numbers are reported as failures. So are node names and edge or blocked-edge endpoints that are not strings (`Causal.Names`, `Causal.EndsAt`, used by `Causal.CausalGraph.ReadEdges` and `Causal.CausalGraph.ReadBlocked`); Python stores any hashable value there.
- Causal.CausalGraph.ReadEdges: an edge whose endpoints are not both strings, or whose weight is not a finite number, is reported as a failure; Python stores any hashable pair and any weight.
- Causal.CausalGraph.ReadBlocked: a blocked edge whose endpoints are not both strings is reported as a failure; Python stores any hashable pair.
- Decidability: the four regular expressions are parameters (`Patterns`), one predicate per pattern over the search text. `str(e)` of an evidence dict is a parameter too.
- Decidability.Confidence: `round(conf, 3)` is not written out. In exact arithmetic every sum of the weights 0.4, 0.3, 0.2 and 0.1 already has at most one decimal place, so the rounding is the identity.
- Translation: `str(h.get("claim", ""))` of a claim that is not a string is a parameter (`show`).
- Gates.BayesianUpdate: requires a non-zero denominator. The source raises `ZeroDivisionError` there, and every caller passes the prior (1, 1).
- Gates.Slot.Decide: requires the hypothesis to carry a textual `id`. A missing `id` raises `KeyError` in the source; ids of other types are not modelled.
- Engine.Maat.Cycle: the contract states the observation, the rows and every ledger. It does not restate the generator adapter's state afterwards, which `Maat.GenerateHypotheses` states.
- Engine.Maat.GetStats: requires a valid store, in which every ledger file holds exactly the lines `append_jsonl` wrote. A ledger file edited by other means is not modelled.
- The receipt status for a deferral is `decision + "ed"`, that is "defered", as the code builds it at maat/slot/gates.py:211-218. The model keeps this spelling, not "deferred".
- Policy.LearnedGatesPolicy.ComputeRegret: `float()` of an evidence field that is not a number or a boolean (a string, say) is the parameter `convert` (see `Json.AsFloat`) of `Policy.Counts`, `Policy.Count` and `Policy.Regret`, with no constraint on it. On real ledgers `mdl.bits_delta` and `coherence.peak_mean` are decimal strings (see `Records`), so whether a record counts, and hence the regret's numerator, depends on `convert`; the model does not tie it to the decimal reading of those strings.
- Policy.RegretRatio: the regret's documented range [0, 1] does not hold. The count ranges over evidence records, not tracked ids (see `Policy.RegretCanExceedOne`), so only non-negativity is proved.
- The command-line demos, the health monitor, the Haar and hyperbolic extensions, and `compute_attention_metrics`' use of floating-point `exp` beyond the `Numerics` parameter are outside the core and are not part of this model.
