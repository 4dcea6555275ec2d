/**
 * `json.dumps(v, ensure_ascii=False, separators=(',', ':'), sort_keys=True)`
 * on the values canonicalisation produces: no whitespace, keys in sorted
 * order, strings quoted with the escapes CPython's encoder writes.
 */
module JsonWriter {
  import opened Text
  import opened Json

  /** Lower-case hexadecimal digit, as in `\u001f`. */
  function HexDigit(d: nat): (c: char)
    requires d < 16
  {
    if d < 10 then DigitChar(d) else ('a' as int + d - 10) as char
  }

  const Backspace: char := 8 as char
  const FormFeed: char := 12 as char

  /** How one character appears inside a JSON string. */
  function EscapeChar(c: char): (e: string)
    ensures |e| >= 1
    ensures e == [c] <==> c != '"' && c != '\\' && c as int >= 0x20
    ensures e != [c] ==> e[0] == '\\'
  {
    if c == '"' then "\\\""
    else if c == '\\' then "\\\\"
    else if c == '\n' then "\\n"
    else if c == '\r' then "\\r"
    else if c == '\t' then "\\t"
    else if c == Backspace then "\\b"
    else if c == FormFeed then "\\f"
    else if c as int < 0x20 then "\\u00" + [HexDigit(c as int / 16), HexDigit(c as int % 16)]
    else [c]
  }

  function Escape(s: string): string {
    if s == [] then "" else EscapeChar(s[0]) + Escape(s[1..])
  }

  function Quote(s: string): (q: string)
    ensures |q| >= 2 && q[0] == '"'
  {
    "\"" + Escape(s) + "\""
  }

  /** The values `json.dumps` accepts here: every dict well formed, no float and no foreign object left. */
  predicate Dumpable(v: Value) {
    match v
    case Num(_) => false
    case Other(_) => false
    case List(items) => forall i | 0 <= i < |items| :: Dumpable(items[i])
    case Dict(o) => KeysMatch(o) && forall k | k in o.vals :: Dumpable(o.vals[k])
    case _ => true
  }

  lemma {:induction false} CanonicalIsDumpable(v: Value)
    requires Canonical(v)
    ensures Dumpable(v)
  {
    match v
    case List(items) =>
      forall i | 0 <= i < |items| ensures Dumpable(items[i]) {
        CanonicalIsDumpable(items[i]);
      }
    case Dict(o) =>
      forall k | k in o.vals ensures Dumpable(o.vals[k]) {
        CanonicalIsDumpable(o.vals[k]);
      }
    case _ =>
  }

  /** The compact text of a value. */
  function Dump(v: Value): (t: string)
    requires Dumpable(v)
    decreases v
  {
    match v
    case Null => "null"
    case Bool(b) => if b then "true" else "false"
    case Int(i) => IntToString(i)
    case Str(s) => Quote(s)
    case List(items) => "[" + Join(DumpAll(items), ",") + "]"
    case Dict(o) =>
      SortedKeys(o);
      "{" + Join(MemberTexts(o, SortStrings(o.keys)), ",") + "}"
  }

  /** The text of each element of a list. */
  function DumpAll(items: seq<Value>): (ts: seq<string>)
    requires forall i | 0 <= i < |items| :: Dumpable(items[i])
    ensures |ts| == |items|
    decreases items
  {
    seq(|items|, i requires 0 <= i < |items| => Dump(items[i]))
  }

  /** `"key":value` for each key of `ks`, in that order. */
  function MemberTexts(o: Obj, ks: seq<string>): (ts: seq<string>)
    requires forall k | k in o.vals :: Dumpable(o.vals[k])
    requires forall k | k in ks :: k in o.vals
    ensures |ts| == |ks|
    decreases o
  {
    seq(|ks|, i requires 0 <= i < |ks| => Quote(ks[i]) + ":" + Dump(o.vals[ks[i]]))
  }

  lemma DictTextStart(o: Obj)
    requires Dumpable(Dict(o))
    ensures Dump(Dict(o))[0] == '{'
  {
  }

  /** No line break ever appears in the output: one value per ledger line. */
  lemma {:induction false} EscapeNoNewline(s: string)
    ensures '\n' !in Escape(s) && '\r' !in Escape(s)
  {
    if s != [] {
      EscapeNoNewline(s[1..]);
      var c := s[0];
      assert '\n' !in EscapeChar(c) && '\r' !in EscapeChar(c) by {
        if c as int < 0x20 && c != '\n' && c != '\r' && c != '\t' && c != Backspace && c != FormFeed {
          var e := EscapeChar(c);
          assert forall i | 0 <= i < |e| :: e[i] as int >= 0x30 || e[i] == '\\' || e[i] == 'u';
        }
      }
    }
  }

  lemma {:induction false} JoinNoChar(parts: seq<string>, sep: string, c: char)
    requires c !in sep && forall i | 0 <= i < |parts| :: c !in parts[i]
    ensures c !in Join(parts, sep)
  {
    if |parts| > 1 {
      JoinNoChar(parts[1..], sep, c);
    }
  }

  /** A line break is either of the two characters Python's universal newlines split on. */
  predicate NoBreak(s: string) {
    '\n' !in s && '\r' !in s
  }

  lemma ConcatNoBreak(a: string, b: string)
    requires NoBreak(a) && NoBreak(b)
    ensures NoBreak(a + b)
  {
  }

  lemma IntNoBreak(i: int)
    ensures NoBreak(IntToString(i))
  {
    var d := NatToString(if i < 0 then -i else i);
    assert forall j | 0 <= j < |d| :: IsDigit(d[j]);
  }

  lemma BracketedNoBreak(parts: seq<string>, open: string, close: string)
    requires NoBreak(open) && NoBreak(close)
    requires forall i | 0 <= i < |parts| :: NoBreak(parts[i])
    ensures NoBreak(open + Join(parts, ",") + close)
  {
    JoinNoChar(parts, ",", '\n');
    JoinNoChar(parts, ",", '\r');
  }

  lemma ListNoBreak(items: seq<Value>)
    requires Dumpable(List(items))
    requires forall i | 0 <= i < |items| :: NoBreak(Dump(items[i]))
    ensures NoBreak(Dump(List(items)))
  {
    BracketedNoBreak(DumpAll(items), "[", "]");
  }

  lemma DictNoBreak(o: Obj)
    requires Dumpable(Dict(o))
    requires forall k | k in o.vals :: NoBreak(Dump(o.vals[k]))
    ensures NoBreak(Dump(Dict(o)))
  {
    SortedKeys(o);
    var ks := SortStrings(o.keys);
    var parts := MemberTexts(o, ks);
    forall i | 0 <= i < |parts| ensures NoBreak(parts[i]) {
      var k := ks[i];
      EscapeNoNewline(k);
      assert NoBreak(Quote(k));
      assert NoBreak(Dump(o.vals[k]));
      ConcatNoBreak(Quote(k) + ":", Dump(o.vals[k]));
    }
    BracketedNoBreak(parts, "{", "}");
  }

  lemma {:induction false} DumpNoNewline(v: Value)
    requires Dumpable(v)
    ensures NoBreak(Dump(v))
  {
    match v
    case Int(i) =>
      IntNoBreak(i);
    case Str(s) =>
      EscapeNoNewline(s);
    case List(items) =>
      forall i | 0 <= i < |items| ensures NoBreak(Dump(items[i])) {
        DumpNoNewline(items[i]);
      }
      ListNoBreak(items);
    case Dict(o) =>
      forall k | k in o.vals ensures NoBreak(Dump(o.vals[k])) {
        DumpNoNewline(o.vals[k]);
      }
      DictNoBreak(o);
    case _ =>
  }

  /** Dicts with the same contents give the same text: the text depends on contents alone. */
  lemma DumpOrderFree(o: Obj, p: Obj)
    requires Dumpable(Dict(o)) && Dumpable(Dict(p)) && o.vals == p.vals
    ensures Dump(Dict(o)) == Dump(Dict(p))
  {
    SameKeyCount(o, p);
    SortStringsPermutation(o.keys, p.keys);
  }
}
