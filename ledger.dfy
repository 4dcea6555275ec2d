/**
 * Canonical JSON, the Universal Knowledge Hash (`ukh`) and the append-only
 * JSON-lines ledgers of `maat/core/canonical.py`.
 *
 * BLAKE2b-256 is not computed here: a `Hasher` is any function from the
 * canonical text to 32 bytes, and `hexdigest()` is modelled exactly.
 */
module Ledger {
  import opened Wrappers
  import opened Text
  import opened Json
  import opened JsonWriter
  import opened JsonReader
  import opened JsonRoundTrip

  newtype byte = x: int | 0 <= x < 256

  /** A 32-byte digest, as `hashlib.blake2b(data, digest_size=32)` returns. */
  type Digest = d: seq<byte> | |d| == 32 witness seq(32, _ => 0 as byte)

  /** BLAKE2b-256 of the UTF-8 bytes of a text. */
  type Hasher = string -> Digest

  predicate IsLowerHex(c: char) {
    '0' <= c <= '9' || 'a' <= c <= 'f'
  }

  /** A `ukh`: 64 lower-case hexadecimal characters. */
  predicate IsUkh(s: string) {
    |s| == 64 && forall i | 0 <= i < |s| :: IsLowerHex(s[i])
  }

  /** `bytes.hex()`: two lower-case digits per byte, high nibble first. */
  function HexDigest(d: seq<byte>): (h: string)
    ensures |h| == 2 * |d|
    ensures forall i | 0 <= i < |h| :: IsLowerHex(h[i])
  {
    if d == [] then ""
    else [HexDigit(d[0] as int / 16), HexDigit(d[0] as int % 16)] + HexDigest(d[1..])
  }

  /** Reads a hexadecimal text back into bytes. */
  function HexBytes(h: string): Option<seq<byte>> {
    if h == [] then Some([])
    else if |h| == 1 then None
    else match (HexValue(h[0]), HexValue(h[1]), HexBytes(h[2..]))
      case (Some(a), Some(b), Some(t)) => Some([(a * 16 + b) as byte] + t)
      case _ => None
  }

  /** The hexadecimal text reads back as the digest: the `ukh` loses nothing of the digest. */
  lemma {:induction false} HexDigestReadsBack(d: seq<byte>)
    ensures HexBytes(HexDigest(d)) == Some(d)
  {
    if d != [] {
      var hi, lo := d[0] as int / 16, d[0] as int % 16;
      HexDigitValue(hi);
      HexDigitValue(lo);
      HexDigestReadsBack(d[1..]);
      var h := HexDigest(d);
      assert h[2..] == HexDigest(d[1..]);
      assert [d[0]] + d[1..] == d;
    }
  }

  lemma HexDigestInjective(d: seq<byte>, e: seq<byte>)
    requires HexDigest(d) == HexDigest(e)
    ensures d == e
  {
    HexDigestReadsBack(d);
    HexDigestReadsBack(e);
  }

  // ---------------------------------------------------------------------
  // canonical_json

  const UkhKey: string := "ukh"

  /** The dict `canonical_json` serialises: without `ukh` when asked to drop it. */
  function Serialised(o: Obj, excludeUkh: bool): (p: Obj)
    requires WFObj(o)
    ensures WFObj(p)
    ensures excludeUkh ==> UkhKey !in p.vals
    ensures forall k :: k in p.vals <==> k in o.vals && (k != UkhKey || !excludeUkh)
    ensures forall k | k in p.vals :: p.vals[k] == o.vals[k]
  {
    RemoveWF(o, UkhKey);
    if excludeUkh && UkhKey in o.vals then Remove(o, UkhKey) else o
  }

  /** `canonical_json(obj, exclude_ukh)`: compact JSON of the canonical dict, keys sorted at every level. */
  function CanonicalJson(o: Obj, excludeUkh: bool): (t: string)
    requires WFObj(o)
  {
    var p := Serialised(o, excludeUkh);
    CanonIsCanonical(Dict(p));
    CanonicalIsDumpable(Dict(CanonDict(p)));
    Dump(Dict(CanonDict(p)))
  }

  /** The text is one line, and `json.loads` gives back the canonical form of the dict. */
  lemma CanonicalJsonReadsBack(o: Obj, excludeUkh: bool)
    requires WFObj(o)
    ensures NoBreak(CanonicalJson(o, excludeUkh))
    ensures Loads(CanonicalJson(o, excludeUkh) + "\n") == Ok(Dict(CanonDict(Serialised(o, excludeUkh))))
    ensures CanonicalJson(o, excludeUkh)[0] == '{'
  {
    var p := Serialised(o, excludeUkh);
    var v := Dict(CanonDict(p));
    CanonIsCanonical(Dict(p));
    CanonicalIsDumpable(v);
    assert CanonicalJson(o, excludeUkh) == Dump(v);
    DumpNoNewline(v);
    LoadsLine(v);
    DictTextStart(CanonDict(p));
  }

  /** Dicts with the same contents, in whatever insertion order, serialise identically. */
  lemma CanonicalJsonOrderFree(o: Obj, q: Obj, excludeUkh: bool)
    requires WFObj(o) && WFObj(q) && SameContent(Dict(o), Dict(q))
    ensures CanonicalJson(o, excludeUkh) == CanonicalJson(q, excludeUkh)
  {
    SerialisedSameContent(o, q, excludeUkh);
    CanonOrderFree(Dict(Serialised(o, excludeUkh)), Dict(Serialised(q, excludeUkh)));
  }

  lemma SerialisedSameContent(o: Obj, q: Obj, excludeUkh: bool)
    requires WFObj(o) && WFObj(q) && SameContent(Dict(o), Dict(q))
    ensures SameContent(Dict(Serialised(o, excludeUkh)), Dict(Serialised(q, excludeUkh)))
  {
    var p, r := Serialised(o, excludeUkh), Serialised(q, excludeUkh);
    assert p.vals.Keys == r.vals.Keys;
    forall k | k in p.vals ensures SameContent(p.vals[k], r.vals[k]) {
      assert p.vals[k] == o.vals[k] && r.vals[k] == q.vals[k];
    }
  }

  /** A dict without `ukh` is unchanged by dropping it. */
  lemma RemoveAbsent(o: Obj, k: string)
    requires KeysMatch(o) && k !in o.vals
    ensures Remove(o, k) == o
  {
    assert o.vals - {k} == o.vals;
  }

  /** With `exclude_ukh`, the text is the same whether `ukh` is absent or holds any value. */
  lemma CanonicalJsonIgnoresUkh(o: Obj, v: Value)
    requires WFObj(o) && WF(v)
    ensures WFObj(Set(o, UkhKey, v))
    ensures CanonicalJson(Set(o, UkhKey, v), true) == CanonicalJson(o, true)
  {
    var s := Set(o, UkhKey, v);
    assert WFObj(s);
    RemoveSet(o, UkhKey, v);
    if UkhKey !in o.vals {
      RemoveAbsent(o, UkhKey);
    }
    assert Serialised(s, true) == Serialised(o, true);
  }

  // ---------------------------------------------------------------------
  // compute_ukh and add_ukh

  /** `compute_ukh(obj)`: the hex digest of the canonical text without `ukh`. */
  function ComputeUkh(h: Hasher, o: Obj): (u: string)
    requires WFObj(o)
    ensures IsUkh(u)
  {
    HexDigest(h(CanonicalJson(o, true)))
  }

  /** The hash ignores the dict's own `ukh` field. */
  lemma UkhIgnoresUkh(h: Hasher, o: Obj, v: Value)
    requires WFObj(o) && WF(v)
    ensures WFObj(Set(o, UkhKey, v))
    ensures ComputeUkh(h, Set(o, UkhKey, v)) == ComputeUkh(h, o)
  {
    CanonicalJsonIgnoresUkh(o, v);
  }

  /** The hash does not depend on the insertion order of any dict inside. */
  lemma UkhOrderFree(h: Hasher, o: Obj, q: Obj)
    requires WFObj(o) && WFObj(q) && SameContent(Dict(o), Dict(q))
    ensures ComputeUkh(h, o) == ComputeUkh(h, q)
  {
    CanonicalJsonOrderFree(o, q, true);
  }

  /** The dict after `add_ukh`: `ukh` set to the hash, in place if already there, else last. */
  function Stamp(h: Hasher, o: Obj): (r: Obj)
    requires WFObj(o)
    ensures WFObj(r)
    ensures r.vals == o.vals[UkhKey := Str(ComputeUkh(h, o))]
    ensures UkhKey in o.vals ==> r.keys == o.keys
    ensures UkhKey !in o.vals ==> r.keys == o.keys + [UkhKey]
  {
    Set(o, UkhKey, Str(ComputeUkh(h, o)))
  }

  /** A stamped dict carries the hash of its own contents: recomputing it confirms the stamp. */
  predicate Sealed(h: Hasher, o: Obj)
    requires WFObj(o)
  {
    UkhKey in o.vals && o.vals[UkhKey] == Str(ComputeUkh(h, o))
  }

  /** `o["ukh"]`, read as text; a record without a textual ukh gives the empty string. */
  function UkhOf(o: Obj): string {
    if UkhKey in o.vals && o.vals[UkhKey].Str? then o.vals[UkhKey].s else ""
  }

  lemma StampSeals(h: Hasher, o: Obj)
    requires WFObj(o)
    ensures Sealed(h, Stamp(h, o))
    ensures ComputeUkh(h, Stamp(h, o)) == ComputeUkh(h, o)
    ensures UkhOf(Stamp(h, o)) == ComputeUkh(h, o)
  {
    UkhIgnoresUkh(h, o, Str(ComputeUkh(h, o)));
  }

  /** A sealed record's `ukh` is its text under `UkhKey`. */
  lemma SealedUkh(h: Hasher, o: Obj)
    requires WFObj(o) && Sealed(h, o)
    ensures Get(o, UkhKey) == Some(Str(UkhOf(o)))
  {
  }

  /** Stamping leaves every other key as it was. */
  lemma StampKeeps(h: Hasher, o: Obj, k: string)
    requires WFObj(o) && k != UkhKey
    ensures k in Stamp(h, o).vals <==> k in o.vals
    ensures k in o.vals ==> Stamp(h, o).vals[k] == o.vals[k]
  {
  }

  /** Stamping twice changes nothing more than stamping once. */
  lemma StampIdempotent(h: Hasher, o: Obj)
    requires WFObj(o)
    ensures Stamp(h, Stamp(h, o)) == Stamp(h, o)
  {
    var s := Stamp(h, o);
    StampSeals(h, o);
    SetSame(s, UkhKey, Str(ComputeUkh(h, o)));
  }

  /** A Python dict that `add_ukh` and `append_jsonl` update in place. */
  class JsonDict {
    var obj: Obj

    constructor (o: Obj)
      ensures obj == o
    {
      obj := o;
    }

    /** `add_ukh(obj)`: sets `ukh` on this very dict and returns it. */
    method AddUkh(h: Hasher) returns (r: JsonDict)
      requires WFObj(obj)
      modifies this
      ensures r == this
      ensures obj == Stamp(h, old(obj))
    {
      obj := Stamp(h, obj);
      r := this;
    }
  }

  // ---------------------------------------------------------------------
  // Text files, as Python's text mode reads them

  /** Universal newlines: `\r\n` and a lone `\r` both read as `\n`. */
  function Universal(s: string): (r: string)
    decreases |s|
  {
    if s == [] then []
    else if s[0] == '\r' then "\n" + Universal(if |s| > 1 && s[1] == '\n' then s[2..] else s[1..])
    else [s[0]] + Universal(s[1..])
  }

  lemma {:induction false} UniversalNoCr(s: string)
    requires '\r' !in s
    ensures Universal(s) == s
  {
    if s != [] {
      UniversalNoCr(s[1..]);
      assert [s[0]] + s[1..] == s;
    }
  }

  /** Length of the first line, its `\n` included. */
  function LineLength(s: string): (n: nat)
    requires s != []
    ensures 1 <= n <= |s|
    ensures forall i | 0 <= i < n - 1 :: s[i] != '\n'
    ensures n < |s| ==> s[n - 1] == '\n'
  {
    if s[0] == '\n' || |s| == 1 then 1 else 1 + LineLength(s[1..])
  }

  /** Iterating over a text file: each line with its `\n`, the last perhaps without one. */
  function Lines(s: string): (ls: seq<string>)
    decreases |s|
  {
    if s == [] then [] else var n := LineLength(s); [s[..n]] + Lines(s[n..])
  }

  function Concat(ls: seq<string>): string {
    if ls == [] then "" else ls[0] + Concat(ls[1..])
  }

  /** A line as `Lines` cuts it: not empty, and no `\n` before its last character. */
  predicate IsLine(l: string) {
    l != [] && forall i | 0 <= i < |l| - 1 :: l[i] != '\n'
  }

  /** The lines put back together are the text; each but the last ends with `\n`. */
  lemma LinesConcat(s: string)
    ensures Concat(Lines(s)) == s
    ensures forall i | 0 <= i < |Lines(s)| :: IsLine(Lines(s)[i])
    ensures forall i | 0 <= i < |Lines(s)| - 1 :: Terminated(Lines(s)[i])
  {
    LinesJoin(s);
    LinesShaped(s);
    LinesTerminated(s);
  }

  lemma {:induction false} LinesJoin(s: string)
    ensures Concat(Lines(s)) == s
    decreases |s|
  {
    if s != [] {
      var n := LineLength(s);
      LinesJoin(s[n..]);
      FirstLine(s);
    }
  }

  lemma {:induction false} LinesShaped(s: string)
    ensures forall i | 0 <= i < |Lines(s)| :: IsLine(Lines(s)[i])
    decreases |s|
  {
    if s != [] {
      var n := LineLength(s);
      LinesShaped(s[n..]);
      FirstLine(s);
      var ls, tail := Lines(s), Lines(s[n..]);
      forall i | 0 <= i < |ls| ensures IsLine(ls[i]) {
        if i > 0 { assert ls[i] == tail[i - 1]; }
      }
    }
  }

  lemma {:induction false} LinesTerminated(s: string)
    ensures forall i | 0 <= i < |Lines(s)| - 1 :: Terminated(Lines(s)[i])
    decreases |s|
  {
    if s != [] {
      var n := LineLength(s);
      LinesTerminated(s[n..]);
      FirstLine(s);
      var ls, tail := Lines(s), Lines(s[n..]);
      forall i | 0 <= i < |ls| - 1 ensures Terminated(ls[i]) {
        if i > 0 { assert ls[i] == tail[i - 1]; }
      }
    }
  }

  /** A line that ends in its `\n`. */
  predicate Terminated(l: string) {
    l != [] && l[|l| - 1] == '\n'
  }

  /** The first line `Lines` cuts: the text is it followed by the rest, and it ends in `\n` unless nothing follows. */
  lemma FirstLine(s: string)
    requires s != []
    ensures var n := LineLength(s);
      && Lines(s) == [s[..n]] + Lines(s[n..]) && Lines(s)[0] == s[..n]
      && Concat(Lines(s)) == s[..n] + Concat(Lines(s[n..]))
      && IsLine(s[..n]) && (Lines(s[n..]) != [] ==> Terminated(s[..n]))
  {
    var n := LineLength(s);
    var first := s[..n];
    assert Lines(s) == [first] + Lines(s[n..]);
    assert ([first] + Lines(s[n..]))[1..] == Lines(s[n..]);
    assert forall i | 0 <= i < |first| - 1 :: first[i] == s[i];
    if Lines(s[n..]) != [] {
      assert n < |s|;
      assert first[n - 1] == s[n - 1];
    }
  }

  lemma LineFirst(x: string, rest: string)
    requires '\n' !in x
    ensures LineLength(x + "\n" + rest) == |x| + 1
    decreases |x|
  {
    if x != [] {
      assert (x + "\n" + rest)[1..] == x[1..] + "\n" + rest;
      LineFirst(x[1..], rest);
    }
  }

  /** Text whose pieces each end in their only `\n` splits back into those pieces. */
  lemma {:induction false} LinesOfConcat(ls: seq<string>)
    requires forall i | 0 <= i < |ls| :: ls[i] != [] && ls[i][|ls[i]| - 1] == '\n' && '\n' !in ls[i][..|ls[i]| - 1]
    ensures Lines(Concat(ls)) == ls
  {
    if ls != [] {
      var x := ls[0][..|ls[0]| - 1];
      var rest := Concat(ls[1..]);
      assert ls[0] == x + "\n";
      assert Concat(ls) == x + "\n" + rest;
      LineFirst(x, rest);
      var s := Concat(ls);
      assert s[..|x| + 1] == ls[0];
      assert s[|x| + 1..] == rest;
      LinesOfConcat(ls[1..]);
    }
  }

  lemma {:induction false} ConcatNoChar(ls: seq<string>, c: char)
    requires forall i | 0 <= i < |ls| :: c !in ls[i]
    ensures c !in Concat(ls)
  {
    if ls != [] {
      ConcatNoChar(ls[1..], c);
    }
  }

  lemma {:induction false} ConcatSnoc(ls: seq<string>, l: string)
    ensures Concat(ls + [l]) == Concat(ls) + l
  {
    if ls == [] {
      assert [l][1..] == [];
    } else {
      assert (ls + [l])[1..] == ls[1..] + [l];
      ConcatSnoc(ls[1..], l);
    }
  }

  // ---------------------------------------------------------------------
  // append_jsonl and read_jsonl

  /** `[json.loads(line) for line in f if line.strip()]`: the first line that fails to parse fails the read. */
  function ReadLines(ls: seq<string>): (r: Result<seq<Value>>)
    ensures r.Ok? ==> |r.value| <= |ls|
  {
    if ls == [] then Ok([])
    else if Strip(ls[0]) == [] then ReadLines(ls[1..])
    else
      var v :- Loads(ls[0]);
      var vs :- ReadLines(ls[1..]);
      Ok([v] + vs)
  }

  /** A line that is not blank and parses to `v`. */
  predicate LineReads(l: string, v: Value) {
    Strip(l) != [] && Loads(l) == Ok(v)
  }

  /** Blank lines are skipped; a line that is not blank contributes exactly its value. */
  lemma {:induction false} ReadLinesAll(ls: seq<string>, vs: seq<Value>)
    requires |ls| == |vs|
    requires forall i {:trigger LineReads(ls[i], vs[i])} | 0 <= i < |ls| :: LineReads(ls[i], vs[i])
    ensures ReadLines(ls) == Ok(vs)
  {
    if ls != [] {
      assert LineReads(ls[0], vs[0]);
      ReadLinesAll(ls[1..], vs[1..]);
      ReadLinesCons(ls, vs[0], vs[1..]);
      HeadTail(vs);
    }
  }

  /** A first line that is not blank and parses puts its value in front of the rest. */
  lemma ReadLinesCons(ls: seq<string>, v: Value, vs: seq<Value>)
    requires ls != [] && LineReads(ls[0], v) && ReadLines(ls[1..]) == Ok(vs)
    ensures ReadLines(ls) == Ok([v] + vs)
  {
  }

  /** The text of a file, read with universal newlines, one value per non-blank line. */
  function ReadText(text: string): Result<seq<Value>> {
    ReadLines(Lines(Universal(text)))
  }

  /** `read_jsonl(path)`: `[]` for a missing file. */
  function ReadFile(files: map<string, string>, path: string): Result<seq<Value>> {
    if path !in files then Ok([]) else ReadText(files[path])
  }

  predicate AllWF(recs: seq<Obj>) {
    forall i | 0 <= i < |recs| :: WFObj(recs[i])
  }

  /** The line `append_jsonl` writes for a record: its canonical text, `ukh` included. */
  function Line(o: Obj): string
    requires WFObj(o)
  {
    CanonicalJson(o, false) + "\n"
  }

  /** One ledger line: ends in its only line break, is never blank, reads back as its record's canonical form. */
  lemma LineReadsBack(o: Obj)
    requires WFObj(o)
    ensures Line(o) != [] && Line(o)[|Line(o)| - 1] == '\n'
    ensures '\n' !in Line(o)[..|Line(o)| - 1] && '\r' !in Line(o)
    ensures Strip(Line(o)) != []
    ensures Loads(Line(o)) == Ok(Dict(CanonDict(o)))
  {
    var x := CanonicalJson(o, false);
    CanonicalJsonReadsBack(o, false);
    assert Line(o)[..|Line(o)| - 1] == x;
    StripShape(Line(o));
    assert !IsSpace(Line(o)[0]);
    assert Serialised(o, false) == o;
  }

  /** The lines of a ledger holding `recs`, in append order. */
  function LedgerLines(recs: seq<Obj>): (ls: seq<string>)
    requires AllWF(recs)
    ensures |ls| == |recs|
  {
    seq(|recs|, i requires 0 <= i < |recs| => Line(recs[i]))
  }

  /** The text of a ledger file holding `recs`. */
  function LedgerText(recs: seq<Obj>): string
    requires AllWF(recs)
  {
    Concat(LedgerLines(recs))
  }

  /** What `read_jsonl` gives for the records: each in its canonical form. */
  function Canonicals(recs: seq<Obj>): (vs: seq<Value>)
    ensures |vs| == |recs|
  {
    seq(|recs|, i requires 0 <= i < |recs| => Dict(CanonDict(recs[i])))
  }

  /** Appending a record appends its line to the text. */
  lemma LedgerTextSnoc(recs: seq<Obj>, r: Obj)
    requires AllWF(recs) && WFObj(r)
    ensures AllWF(recs + [r])
    ensures LedgerText(recs + [r]) == LedgerText(recs) + Line(r)
  {
    var all := recs + [r];
    assert AllWF(all) by {
      forall i | 0 <= i < |all| ensures WFObj(all[i]) {
        if i < |recs| { assert all[i] == recs[i]; }
      }
    }
    var a, b := LedgerLines(recs), LedgerLines(all);
    forall i | 0 <= i < |b| ensures b[i] == (a + [Line(r)])[i] {
      if i < |recs| { assert all[i] == recs[i]; }
    }
    assert b == a + [Line(r)];
    ConcatSnoc(a, Line(r));
  }

  /** Reading a ledger gives back every record appended, in append order, each in canonical form. */
  lemma ReadLedger(recs: seq<Obj>)
    requires AllWF(recs)
    ensures ReadText(LedgerText(recs)) == Ok(Canonicals(recs))
  {
    var ls := LedgerLines(recs);
    forall i | 0 <= i < |ls|
      ensures ls[i] != [] && ls[i][|ls[i]| - 1] == '\n' && '\n' !in ls[i][..|ls[i]| - 1]
      ensures '\r' !in ls[i] && LineReads(ls[i], Canonicals(recs)[i])
    {
      LineReadsBack(recs[i]);
    }
    ConcatNoChar(ls, '\r');
    UniversalNoCr(LedgerText(recs));
    LinesOfConcat(ls);
    ReadLinesAll(ls, Canonicals(recs));
  }

  /** The text of a file, empty when it does not exist yet. */
  function FileText(files: map<string, string>, path: string): string {
    if path in files then files[path] else ""
  }

  function RecordsOf(ledgers: map<string, seq<Obj>>, path: string): seq<Obj> {
    if path in ledgers then ledgers[path] else []
  }

  /** The ledgers after one more record is appended to `path`. */
  function Appended(ledgers: map<string, seq<Obj>>, path: string, o: Obj): map<string, seq<Obj>> {
    ledgers[path := RecordsOf(ledgers, path) + [o]]
  }

  /** The files after one more record's line is written to `path`. */
  function Written(files: map<string, string>, path: string, o: Obj): map<string, string>
    requires WFObj(o)
  {
    files[path := FileText(files, path) + Line(o)]
  }

  /** Appending to one file adds that record at the end of that file and leaves every other file alone. */
  lemma AppendedRecords(ledgers: map<string, seq<Obj>>, path: string, o: Obj, q: string)
    ensures RecordsOf(Appended(ledgers, path, o), q) == if q == path then RecordsOf(ledgers, path) + [o] else RecordsOf(ledgers, q)
  {
  }

  /** Every file holds exactly the lines of the records appended to it, in order. */
  predicate Holds(files: map<string, string>, ledgers: map<string, seq<Obj>>) {
    files.Keys == ledgers.Keys &&
    forall p | p in ledgers :: AllWF(ledgers[p]) && files[p] == LedgerText(ledgers[p])
  }

  /** Appending one record's line to a file keeps every file in step with its records. */
  lemma HoldsAppend(files: map<string, string>, ledgers: map<string, seq<Obj>>, path: string, o: Obj)
    requires Holds(files, ledgers) && WFObj(o)
    ensures Holds(Written(files, path, o), Appended(ledgers, path, o))
  {
    var recs := RecordsOf(ledgers, path);
    var f, l := Written(files, path, o), Appended(ledgers, path, o);
    assert f.Keys == l.Keys;
    forall p | p in l ensures AllWF(l[p]) && f[p] == LedgerText(l[p]) {
      if p == path {
        assert FileText(files, path) == LedgerText(recs);
        LedgerTextSnoc(recs, o);
      } else {
        assert l[p] == ledgers[p] && f[p] == files[p];
      }
    }
  }

  /** The ledger files on disk: each path's text and, as ghost state, the records appended to it. */
  class Store {
    var files: map<string, string>
    ghost var ledgers: map<string, seq<Obj>>

    ghost predicate Valid()
      reads this
    {
      Holds(files, ledgers)
    }

    constructor ()
      ensures Valid() && files == map[] && ledgers == map[]
    {
      files := map[];
      ledgers := map[];
    }

    /** `append_jsonl`: stamp the record with its `ukh` unless it has one, then append its canonical line. */
    method AppendJsonl(h: Hasher, path: string, d: JsonDict)
      requires Valid() && WFObj(d.obj)
      modifies this, d
      ensures Valid()
      ensures d.obj == if UkhKey in old(d.obj.vals) then old(d.obj) else Stamp(h, old(d.obj))
      ensures ledgers == Appended(old(ledgers), path, d.obj)
      ensures files == Written(old(files), path, d.obj)
    {
      ghost var before := d.obj;
      if UkhKey !in d.obj.vals {
        var _ := d.AddUkh(h);
      }
      var o := d.obj;
      assert WFObj(o) && o == if UkhKey in before.vals then before else Stamp(h, before);
      HoldsAppend(files, ledgers, path, o);
      files := Written(files, path, o);
      ledgers := Appended(ledgers, path, o);
    }

    /** Nothing written to the store, nothing changed in it. */
    twostate lemma StillValid()
      requires old(Valid()) && unchanged(this)
      ensures Valid()
    {
    }

    /** `read_jsonl`: every record appended to the file, in order, in its canonical form. */
    method ReadJsonl(path: string) returns (r: Result<seq<Value>>)
      requires Valid()
      ensures r == ReadFile(files, path)
      ensures r == Ok(Canonicals(RecordsOf(ledgers, path)))
    {
      r := ReadFile(files, path);
      ReadLedger(RecordsOf(ledgers, path));
    }
  }
}
