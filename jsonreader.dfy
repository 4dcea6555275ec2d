/**
 * `json.loads` as CPython's scanner reads a document: whitespace around
 * tokens, strings with backslash escapes (surrogate pairs combined),
 * numbers that become `int` or `float`, the constants `NaN` and
 * `Infinity`, and objects whose repeated keys keep their first place and
 * their last value.
 */
module JsonReader {
  import opened Wrappers
  import opened Text
  import opened Decimal
  import opened Json

  /** The whitespace JSON allows between tokens. */
  predicate IsWs(c: char) {
    c == ' ' || c == '\t' || c == '\n' || c == '\r'
  }

  function SkipWs(s: string): (r: string)
    ensures |r| <= |s|
    ensures r == [] || !IsWs(r[0])
    ensures s == [] || !IsWs(s[0]) ==> r == s
  {
    if s != [] && IsWs(s[0]) then SkipWs(s[1..]) else s
  }

  function HexValue(c: char): (r: Option<nat>)
    ensures r.Some? ==> r.value < 16
  {
    if '0' <= c <= '9' then Some(c as int - '0' as int)
    else if 'a' <= c <= 'f' then Some(c as int - 'a' as int + 10)
    else if 'A' <= c <= 'F' then Some(c as int - 'A' as int + 10)
    else None
  }

  /** Four hexadecimal digits at the start of `s`. */
  function Hex4(s: string): (r: Option<nat>)
    ensures r.Some? ==> |s| >= 4 && r.value < 0x1_0000
  {
    if |s| < 4 then None
    else match (HexValue(s[0]), HexValue(s[1]), HexValue(s[2]), HexValue(s[3]))
      case (Some(a), Some(b), Some(c), Some(d)) => Some(((a * 16 + b) * 16 + c) * 16 + d)
      case _ => None
  }

  predicate IsHighSurrogate(u: nat) {
    0xD800 <= u <= 0xDBFF
  }

  predicate IsLowSurrogate(u: nat) {
    0xDC00 <= u <= 0xDFFF
  }

  /** The escape after a backslash inside a string: the character it stands for, and what follows. */
  function ParseEscape(s: string): (r: Result<(char, string)>)
    ensures r.Ok? ==> |r.value.1| < |s|
  {
    if s == [] then Failure("Unterminated string")
    else if s[0] == 'u' then
      match Hex4(s[1..])
      case None => Failure("Invalid \\uXXXX escape")
      case Some(u) =>
        var t := s[5..];
        if IsHighSurrogate(u) then
          if |t| >= 6 && t[0] == '\\' && t[1] == 'u' && Hex4(t[2..]).Some? && IsLowSurrogate(Hex4(t[2..]).value) then
            var lo := Hex4(t[2..]).value;
            Ok(((0x1_0000 + (u - 0xD800) * 0x400 + (lo - 0xDC00)) as char, t[6..]))
          else Failure("lone surrogate")
        else if IsLowSurrogate(u) then Failure("lone surrogate")
        else Ok((u as char, t))
    else if s[0] == '"' then Ok(('"', s[1..]))
    else if s[0] == '\\' then Ok(('\\', s[1..]))
    else if s[0] == '/' then Ok(('/', s[1..]))
    else if s[0] == 'b' then Ok((8 as char, s[1..]))
    else if s[0] == 'f' then Ok((12 as char, s[1..]))
    else if s[0] == 'n' then Ok(('\n', s[1..]))
    else if s[0] == 'r' then Ok(('\r', s[1..]))
    else if s[0] == 't' then Ok(('\t', s[1..]))
    else Failure("Invalid \\escape")
  }

  /** The rest of a string after its opening quote: its characters, and what follows the closing quote. */
  function ParseStringBody(s: string): (r: Result<(string, string)>)
    ensures r.Ok? ==> |r.value.1| < |s|
  {
    if s == [] then Failure("Unterminated string")
    else if s[0] == '"' then Ok(("", s[1..]))
    else if s[0] == '\\' then
      var e :- ParseEscape(s[1..]);
      var b :- ParseStringBody(e.1);
      Ok(([e.0] + b.0, b.1))
    else if s[0] as int < 0x20 then Failure("Invalid control character")
    else
      var b :- ParseStringBody(s[1..]);
      Ok(([s[0]] + b.0, b.1))
  }

  /** An exponent such as `e-7`; `None` when there is none, and the scanner backs up to the `e`. */
  function ScanExponent(s: string): (r: Option<(int, string)>)
    ensures r.Some? ==> |r.value.1| < |s|
  {
    if s == [] || (s[0] != 'e' && s[0] != 'E') then None
    else
      var signed := |s| >= 2 && (s[1] == '-' || s[1] == '+');
      var u := if signed then s[2..] else s[1..];
      var n := DigitRun(u);
      if n == 0 then None
      else
        var e: int := DigitsValue(u[..n]);
        Some((if signed && s[1] == '-' then -e else e, u[n..]))
  }

  /** The float `float()` makes of a mantissa of `m` units of 10^e, exactly (no rounding to binary64). */
  function FloatOf(negative: bool, m: nat, e: int): (f: Float)
    ensures f.Finite? || f.NegZero?
  {
    var x := if e >= 0 then (m * Pow10(e)) as real else m as real / Pow10(-e) as real;
    if !negative then Finite(x)
    else if x == 0.0 then NegZero
    else Finite(-x)
  }

  /** Length of the integer part: a lone `0`, or a run of digits. */
  function WholeLength(t: string): (n: nat)
    requires t != [] && IsDigit(t[0])
    ensures 1 <= n <= |t| && AllDigits(t[..n])
  {
    if t[0] == '0' then 1 else DigitRun(t)
  }

  /** Length of the fraction digits after a `.`, or 0 when no digit follows a `.`. */
  function FractionLength(t: string): (n: nat)
    ensures n > 0 ==> 1 + n <= |t| && AllDigits(t[1..1 + n])
    ensures n == 0 <==> !(|t| >= 2 && t[0] == '.' && IsDigit(t[1]))
  {
    if |t| >= 2 && t[0] == '.' && IsDigit(t[1]) then
      var n := DigitRun(t[1..]);
      assert t[1..][..n] == t[1..1 + n];
      n
    else 0
  }

  /** The number `int()` or `float()` makes of the digits matched. */
  function NumberOf(negative: bool, whole: string, frac: string, exp: Option<int>): Value
    requires AllDigits(whole) && AllDigits(frac)
  {
    if frac == [] && exp.None? then
      var n: int := DigitsValue(whole);
      Int(if negative then -n else n)
    else
      assert AllDigits(whole + frac);
      Num(FloatOf(negative, DigitsValue(whole + frac), exp.GetOr(0) - |frac|))
  }

  /** A number: `-?(0|[1-9][0-9]*)(\.[0-9]+)?([eE][-+]?[0-9]+)?`, an `int` without fraction and exponent. */
  function ScanNumber(s: string): (r: Option<(Value, string)>)
    ensures r.Some? ==> |r.value.1| < |s|
  {
    var negative := s != [] && s[0] == '-';
    var t := if negative then s[1..] else s;
    if t == [] || !IsDigit(t[0]) then None
    else
      var ni := WholeLength(t);
      var t1 := t[ni..];
      var nf := FractionLength(t1);
      var t2 := if nf > 0 then t1[1 + nf..] else t1;
      var frac := if nf > 0 then t1[1..1 + nf] else "";
      match ScanExponent(t2)
      case None => Some((NumberOf(negative, t[..ni], frac, None), t2))
      case Some((e, t3)) => Some((NumberOf(negative, t[..ni], frac, Some(e)), t3))
  }

  /** One JSON value at the start of `s` (no leading whitespace), and what follows it. */
  function ParseValue(s: string): (r: Result<(Value, string)>)
    ensures r.Ok? ==> |r.value.1| < |s|
    decreases |s|, 0
  {
    if s == [] then Failure("Expecting value")
    else if s[0] == '"' then AsStr(ParseStringBody(s[1..]))
    else if s[0] == '{' then AsDict(ParseObject(s[1..]))
    else if s[0] == '[' then AsList(ParseArray(s[1..]))
    else ParseAtom(s)
  }

  function AsStr(r: Result<(string, string)>): (v: Result<(Value, string)>)
    ensures r.Ok? <==> v.Ok?
    ensures r.Ok? ==> v.value == (Str(r.value.0), r.value.1)
  {
    var b :- r;
    Ok((Str(b.0), b.1))
  }

  function AsDict(r: Result<(Obj, string)>): (v: Result<(Value, string)>)
    ensures r.Ok? <==> v.Ok?
    ensures r.Ok? ==> v.value == (Dict(r.value.0), r.value.1)
  {
    var b :- r;
    Ok((Dict(b.0), b.1))
  }

  function AsList(r: Result<(seq<Value>, string)>): (v: Result<(Value, string)>)
    ensures r.Ok? <==> v.Ok?
    ensures r.Ok? ==> v.value == (List(r.value.0), r.value.1)
  {
    var b :- r;
    Ok((List(b.0), b.1))
  }

  /** A literal, a number or a constant: the values that contain no other value. */
  function ParseAtom(s: string): (r: Result<(Value, string)>)
    ensures r.Ok? ==> |r.value.1| < |s|
  {
    if StartsWith(s, "null") then Ok((Null, s[4..]))
    else if StartsWith(s, "true") then Ok((Bool(true), s[4..]))
    else if StartsWith(s, "false") then Ok((Bool(false), s[5..]))
    else match ScanNumber(s)
      case Some(p) => Ok(p)
      case None =>
        if StartsWith(s, "NaN") then Ok((Num(NaN), s[3..]))
        else if StartsWith(s, "Infinity") then Ok((Num(Infinity(false)), s[8..]))
        else if StartsWith(s, "-Infinity") then Ok((Num(Infinity(true)), s[9..]))
        else Failure("Expecting value")
  }

  /** The rest of an array after its `[`. */
  function ParseArray(s: string): (r: Result<(seq<Value>, string)>)
    ensures r.Ok? ==> |r.value.1| < |s|
    decreases |s|, 2
  {
    var t := SkipWs(s);
    if t != [] && t[0] == ']' then Ok(([], t[1..]))
    else ParseElements(t)
  }

  /** The elements of a non-empty array, and what follows its `]`. */
  function ParseElements(s: string): (r: Result<(seq<Value>, string)>)
    ensures r.Ok? ==> |r.value.1| < |s|
    decreases |s|, 1
  {
    var p :- ParseValue(s);
    var t := SkipWs(p.1);
    if t != [] && t[0] == ']' then Ok(([p.0], t[1..]))
    else if t != [] && t[0] == ',' then
      var q :- ParseElements(SkipWs(t[1..]));
      Ok(([p.0] + q.0, q.1))
    else Failure("Expecting ',' delimiter")
  }

  /** The rest of an object after its `{`. */
  function ParseObject(s: string): (r: Result<(Obj, string)>)
    ensures r.Ok? ==> |r.value.1| < |s|
    decreases |s|, 2
  {
    var t := SkipWs(s);
    if t != [] && t[0] == '}' then Ok((EmptyObj, t[1..]))
    else if t != [] && t[0] == '"' then
      var q :- ParseMembers(t[1..]);
      Ok((FromPairs(q.0), q.1))
    else Failure("Expecting property name enclosed in double quotes")
  }

  /** The members of a non-empty object, starting just after the quote that opens the first key. */
  function ParseMembers(s: string): (r: Result<(seq<(string, Value)>, string)>)
    ensures r.Ok? ==> |r.value.1| < |s|
    decreases |s|, 1
  {
    var k :- ParseStringBody(s);
    var t := SkipWs(k.1);
    if t == [] || t[0] != ':' then Failure("Expecting ':' delimiter")
    else
      var p :- ParseValue(SkipWs(t[1..]));
      var u := SkipWs(p.1);
      if u != [] && u[0] == '}' then Ok(([(k.0, p.0)], u[1..]))
      else if u != [] && u[0] == ',' then
        var w := SkipWs(u[1..]);
        if w == [] || w[0] != '"' then Failure("Expecting property name enclosed in double quotes")
        else
          var q :- ParseMembers(w[1..]);
          Ok(([(k.0, p.0)] + q.0, q.1))
      else Failure("Expecting ',' delimiter")
  }

  /** `dict(pairs)`: each pair assigned in turn. */
  function FromPairs(ps: seq<(string, Value)>): (o: Obj)
    ensures KeysMatch(o)
  {
    if ps == [] then EmptyObj
    else
      var last := ps[|ps| - 1];
      Set(FromPairs(ps[..|ps| - 1]), last.0, last.1)
  }

  const ByteOrderMark: char := 0xFEFF as char

  /** `json.loads(s)` */
  function Loads(s: string): Result<Value> {
    if s != [] && s[0] == ByteOrderMark then Failure("Unexpected UTF-8 BOM (decode using utf-8-sig)")
    else
      var p :- ParseValue(SkipWs(s));
      if SkipWs(p.1) != [] then Failure("Extra data") else Ok(p.0)
  }
}
