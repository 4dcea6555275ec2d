/**
 * Reading back what the writer wrote: for every canonical value `v`,
 * `json.loads(json.dumps(v, ...)) == v`, contents and key order alike.
 */
module JsonRoundTrip {
  import opened Wrappers
  import opened Text
  import opened Decimal
  import opened Json
  import opened JsonWriter
  import opened JsonReader

  // ---------------------------------------------------------------------
  // Strings

  lemma HexDigitValue(d: nat)
    requires d < 16
    ensures HexValue(HexDigit(d)) == Some(d)
  {
  }

  lemma {:induction false} UnicodeEscapeRead(c: char, t: string)
    requires c as int < 0x20
    ensures ParseEscape(EscapeChar(c)[1..] + t) == Ok((c, t))
    ensures EscapeChar(c)[0] == '\\'
  {
    var e := EscapeChar(c);
    if c != '\n' && c != '\r' && c != '\t' && c != Backspace && c != FormFeed {
      var hi, lo := c as int / 16, c as int % 16;
      var body := ['0', '0', HexDigit(hi), HexDigit(lo)];
      assert e == "\\u00" + [HexDigit(hi), HexDigit(lo)];
      assert e[1..] == ['u'] + body;
      var s := e[1..] + t;
      assert s[0] == 'u' && s[1..] == body + t && s[5..] == t by {
        assert s == ['u'] + (body + t);
      }
      Hex4Low(hi, lo, t);
    }
  }

  /** `00XY` reads as the number with hex digits X and Y. */
  lemma Hex4Low(hi: nat, lo: nat, t: string)
    requires hi < 2 && lo < 16
    ensures Hex4(['0', '0', HexDigit(hi), HexDigit(lo)] + t) == Some(hi * 16 + lo)
  {
    HexDigitValue(0);
    HexDigitValue(hi);
    HexDigitValue(lo);
    var s := ['0', '0', HexDigit(hi), HexDigit(lo)] + t;
    assert s[0] == '0' && s[1] == '0' && s[2] == HexDigit(hi) && s[3] == HexDigit(lo);
  }

  /** Each escape the writer produces reads back as the character it stands for. */
  lemma EscapeRead(c: char, t: string)
    requires EscapeChar(c) != [c]
    ensures EscapeChar(c)[0] == '\\'
    ensures ParseEscape(EscapeChar(c)[1..] + t) == Ok((c, t))
  {
    if c as int < 0x20 {
      UnicodeEscapeRead(c, t);
    }
  }

  lemma EscapeCharRead(c: char, t: string, b: (string, string))
    requires ParseStringBody(t) == Ok(b)
    ensures ParseStringBody(EscapeChar(c) + t) == Ok(([c] + b.0, b.1))
  {
    var e := EscapeChar(c);
    if e == [c] {
      assert (e + t)[1..] == t;
    } else {
      EscapeRead(c, t);
      assert (e + t)[1..] == e[1..] + t;
    }
  }

  /** A quoted string reads back as itself, whatever follows the closing quote. */
  lemma {:induction false} EscapeReadsBack(s: string, rest: string)
    ensures ParseStringBody(Escape(s) + "\"" + rest) == Ok((s, rest))
  {
    if s == [] {
      assert Escape(s) + "\"" + rest == ['"'] + rest;
    } else {
      var tail := Escape(s[1..]) + "\"" + rest;
      EscapeReadsBack(s[1..], rest);
      EscapeCharRead(s[0], tail, (s[1..], rest));
      assert Escape(s) + "\"" + rest == EscapeChar(s[0]) + tail;
      assert [s[0]] + s[1..] == s;
    }
  }

  lemma QuoteReadsBack(s: string, rest: string)
    ensures Quote(s) + rest == ['"'] + (Escape(s) + "\"" + rest)
    ensures ParseValue(Quote(s) + rest) == Ok((Str(s), rest))
  {
    EscapeReadsBack(s, rest);
    assert (Quote(s) + rest)[1..] == Escape(s) + "\"" + rest;
  }

  // ---------------------------------------------------------------------
  // Integers

  /** What may follow a value inside a document the writer produced, or a ledger line. */
  predicate Delim(rest: string) {
    rest == [] || rest[0] == ',' || rest[0] == ']' || rest[0] == '}' || rest[0] == '\n'
  }

  lemma WholeOfDigits(d: string, rest: string)
    requires |d| >= 1 && AllDigits(d) && (d[0] != '0' || d == "0")
    requires Delim(rest)
    ensures (d + rest)[0] == d[0] && IsDigit(d[0])
    ensures WholeLength(d + rest) == |d|
  {
    if d[0] != '0' {
      DigitRunOf(d, rest);
    }
  }

  lemma ScanWhole(negative: bool, d: string, rest: string)
    requires |d| >= 1 && AllDigits(d) && (d[0] != '0' || d == "0")
    requires Delim(rest)
    ensures ScanNumber((if negative then "-" else "") + d + rest) == Some((NumberOf(negative, d, "", None), rest))
  {
    var s := (if negative then "-" else "") + d + rest;
    var t := d + rest;
    assert (if negative then s[1..] else s) == t;
    assert (s != [] && s[0] == '-') == negative;
    WholeOfDigits(d, rest);
    assert t[..|d|] == d && t[|d|..] == rest;
    DelimEndsNumber(rest);
  }

  lemma DelimEndsNumber(rest: string)
    requires Delim(rest)
    ensures FractionLength(rest) == 0 && ScanExponent(rest) == None
  {
  }

  lemma NatReadsBack(negative: bool, n: nat, rest: string)
    requires Delim(rest)
    ensures ScanNumber((if negative then "-" else "") + NatToString(n) + rest)
         == Some((Int(if negative then -(n as int) else n), rest))
  {
    NatToStringLeading(n);
    ScanWhole(negative, NatToString(n), rest);
    NatToStringValue(n);
  }

  lemma SignedFirst(negative: bool, d: string, rest: string)
    requires d != [] && IsDigit(d[0])
    ensures var s := (if negative then "-" else "") + d + rest; s != [] && (s[0] == '-' || IsDigit(s[0]))
  {
  }

  lemma IntText(i: int)
    ensures IntToString(i) == (if i < 0 then "-" else "") + NatToString(if i < 0 then -i else i)
  {
    if i >= 0 {
      assert "" + NatToString(i) == NatToString(i);
    }
  }

  lemma NotLiteral(s: string)
    requires s != [] && (s[0] == '-' || IsDigit(s[0]))
    ensures !StartsWith(s, "null") && !StartsWith(s, "true") && !StartsWith(s, "false")
  {
    assert s[0] != 'n' && s[0] != 't' && s[0] != 'f';
  }

  lemma AtomDispatch(s: string)
    requires s != [] && s[0] != '"' && s[0] != '{' && s[0] != '['
    ensures ParseValue(s) == ParseAtom(s)
  {
  }

  lemma NumberDispatch(s: string, p: (Value, string))
    requires s != [] && (s[0] == '-' || IsDigit(s[0])) && ScanNumber(s) == Some(p)
    ensures ParseAtom(s) == Ok(p)
  {
    NotLiteral(s);
  }

  lemma IntReadsBack(i: int, rest: string)
    requires Delim(rest)
    ensures ParseValue(IntToString(i) + rest) == Ok((Int(i), rest))
  {
    var n: nat := if i < 0 then -i else i;
    var s := (if i < 0 then "-" else "") + NatToString(n) + rest;
    NatReadsBack(i < 0, n, rest);
    SignedFirst(i < 0, NatToString(n), rest);
    NumberDispatch(s, (Int(i), rest));
    AtomDispatch(s);
    IntText(i);
  }

  // ---------------------------------------------------------------------
  // Literals and the first character of a text

  lemma LiteralReadsBack(v: Value, rest: string)
    requires v.Null? || v.Bool?
    ensures ParseValue(Dump(v) + rest) == Ok((v, rest))
  {
    var s := Dump(v) + rest;
    AtomDispatch(s);
    if v.Null? {
      assert s[..4] == "null";
    } else if v.b {
      assert s[..4] == "true";
    } else {
      assert s[..4] != "null" && s[..4] != "true";
      assert s[..5] == "false";
    }
  }

  /** A text never starts with whitespace or a byte-order mark. */
  lemma DumpStart(v: Value)
    requires Dumpable(v)
    ensures Dump(v) != [] && !IsWs(Dump(v)[0]) && Dump(v)[0] != ByteOrderMark && Dump(v)[0] != ']'
  {
    if v.Int? {
      IntText(v.i);
    }
  }

  /** `v` reads back from its text, whatever permitted delimiter follows. */
  ghost predicate ReadsBack(v: Value) {
    Dumpable(v) && forall r | Delim(r) :: ParseValue(Dump(v) + r) == Ok((v, r))
  }

  lemma UseReadsBack(v: Value, r: string)
    requires ReadsBack(v) && Delim(r)
    ensures ParseValue(Dump(v) + r) == Ok((v, r))
  {
  }

  // ---------------------------------------------------------------------
  // Lists

  lemma ElementsLast(s: string, v: Value, rest: string)
    requires ParseValue(s) == Ok((v, "]" + rest))
    ensures ParseElements(s) == Ok(([v], rest))
  {
    assert ("]" + rest)[1..] == rest;
  }

  lemma ElementsNext(s: string, v: Value, more: string, r: (seq<Value>, string))
    requires ParseValue(s) == Ok((v, "," + more))
    requires more == [] || !IsWs(more[0])
    requires ParseElements(more) == Ok(r)
    ensures ParseElements(s) == Ok(([v] + r.0, r.1))
  {
    assert ("," + more)[1..] == more;
  }

  /** Texts that each read back as their value join into the elements of an array. */
  lemma {:induction false} ElementsReadBack(items: seq<Value>, parts: seq<string>, rest: string)
    requires |parts| == |items| >= 1
    requires forall i | 0 <= i < |parts| :: parts[i] != [] && !IsWs(parts[i][0])
    requires forall i, r | 0 <= i < |parts| && Delim(r) :: ParseValue(parts[i] + r) == Ok((items[i], r))
    ensures ParseElements(Join(parts, ",") + "]" + rest) == Ok((items, rest))
  {
    var p0 := parts[0];
    if |items| == 1 {
      assert Join(parts, ",") + "]" + rest == p0 + ("]" + rest);
      assert Delim("]" + rest);
      assert ParseValue(p0 + ("]" + rest)) == Ok((items[0], "]" + rest));
      ElementsLast(p0 + ("]" + rest), items[0], rest);
      assert [items[0]] == items;
    } else {
      var more := Join(parts[1..], ",") + "]" + rest;
      assert Join(parts, ",") + "]" + rest == p0 + ("," + more);
      assert more[0] == parts[1][0];
      ElementsReadBack(items[1..], parts[1..], rest);
      assert Delim("," + more);
      assert ParseValue(p0 + ("," + more)) == Ok((items[0], "," + more));
      ElementsNext(p0 + ("," + more), items[0], more, (items[1..], rest));
      assert [items[0]] + items[1..] == items;
    }
  }

  lemma ElementTexts(items: seq<Value>)
    requires Dumpable(List(items))
    requires forall i | 0 <= i < |items| :: ReadsBack(items[i])
    ensures forall i | 0 <= i < |items| :: DumpAll(items)[i] != [] && !IsWs(DumpAll(items)[i][0])
    ensures forall i, r | 0 <= i < |items| && Delim(r) :: ParseValue(DumpAll(items)[i] + r) == Ok((items[i], r))
  {
    var parts := DumpAll(items);
    forall i | 0 <= i < |parts| ensures parts[i] != [] && !IsWs(parts[i][0]) {
      DumpStart(items[i]);
    }
    forall i, r | 0 <= i < |parts| && Delim(r) ensures ParseValue(parts[i] + r) == Ok((items[i], r)) {
      UseReadsBack(items[i], r);
    }
  }

  lemma ListText(items: seq<Value>, rest: string)
    requires Dumpable(List(items))
    ensures Dump(List(items)) + rest == "[" + (Join(DumpAll(items), ",") + "]" + rest)
  {
    var j := Join(DumpAll(items), ",");
    assert Dump(List(items)) == "[" + j + "]";
  }

  lemma ArrayEmpty(rest: string)
    ensures ParseArray("]" + rest) == Ok(([], rest))
  {
    assert ("]" + rest)[1..] == rest;
  }

  lemma ArrayElements(body: string, items: seq<Value>, rest: string)
    requires body != [] && !IsWs(body[0]) && body[0] != ']'
    requires ParseElements(body) == Ok((items, rest))
    ensures ParseArray(body) == Ok((items, rest))
  {
  }

  lemma ValueOfArray(body: string, items: seq<Value>, rest: string)
    requires ParseArray(body) == Ok((items, rest))
    ensures ParseValue("[" + body) == Ok((List(items), rest))
  {
    assert ("[" + body)[1..] == body;
  }

  /** The elements of a non-empty list read back. */
  lemma ElementsOfList(items: seq<Value>, rest: string)
    requires Dumpable(List(items)) && items != []
    requires forall i | 0 <= i < |items| :: ReadsBack(items[i])
    ensures var body := Join(DumpAll(items), ",") + "]" + rest;
      body != [] && !IsWs(body[0]) && body[0] != ']' && ParseElements(body) == Ok((items, rest))
  {
    var parts := DumpAll(items);
    var body := Join(parts, ",") + "]" + rest;
    assert body == Join(parts, ",") + ("]" + rest);
    assert body[0] == Dump(items[0])[0] by {
      DumpStart(items[0]);
      JoinFirst(parts, "]" + rest);
    }
    DumpStart(items[0]);
    assert ParseElements(body) == Ok((items, rest)) by {
      ElementTexts(items);
      ElementsReadBack(items, parts, rest);
    }
  }

  lemma ListReadsBack(items: seq<Value>, rest: string)
    requires Dumpable(List(items))
    requires forall i | 0 <= i < |items| :: ReadsBack(items[i])
    ensures ParseValue(Dump(List(items)) + rest) == Ok((List(items), rest))
  {
    ListText(items, rest);
    var parts := DumpAll(items);
    var body := Join(parts, ",") + "]" + rest;
    if items == [] {
      assert body == "]" + rest;
      ArrayEmpty(rest);
    } else {
      ElementsOfList(items, rest);
      ArrayElements(body, items, rest);
    }
    ValueOfArray(body, items, rest);
  }

  // ---------------------------------------------------------------------
  // Objects

  lemma MemberLast(s: string, key: string, x: string, v: Value, rest: string)
    requires ParseStringBody(s) == Ok((key, ":" + x))
    requires x != [] && !IsWs(x[0])
    requires ParseValue(x) == Ok((v, "}" + rest))
    ensures ParseMembers(s) == Ok(([(key, v)], rest))
  {
    assert (":" + x)[1..] == x;
    assert ("}" + rest)[1..] == rest;
  }

  lemma MemberNext(s: string, key: string, x: string, v: Value, more: string, r: (seq<(string, Value)>, string))
    requires ParseStringBody(s) == Ok((key, ":" + x))
    requires x != [] && !IsWs(x[0])
    requires ParseValue(x) == Ok((v, "," + more))
    requires more != [] && more[0] == '"'
    requires ParseMembers(more[1..]) == Ok(r)
    ensures ParseMembers(s) == Ok(([(key, v)] + r.0, r.1))
  {
    assert (":" + x)[1..] == x;
    assert ("," + more)[1..] == more;
  }

  function Zip(ks: seq<string>, vs: seq<Value>): (ps: seq<(string, Value)>)
    requires |ks| == |vs|
    ensures |ps| == |ks|
    ensures forall i | 0 <= i < |ps| :: ps[i] == (ks[i], vs[i])
  {
    seq(|ks|, i requires 0 <= i < |ks| => (ks[i], vs[i]))
  }

  lemma Assoc3(a: string, sep: string, j: string, close: string)
    ensures a + sep + j + close == a + (sep + (j + close))
  {
  }

  lemma JoinHead(parts: seq<string>, close: string)
    requires |parts| >= 1
    ensures |parts| == 1 ==> Join(parts, ",") + close == parts[0] + close
    ensures |parts| > 1 ==> Join(parts, ",") + close == parts[0] + ("," + (Join(parts[1..], ",") + close))
  {
    if |parts| > 1 {
      var j := Join(parts[1..], ",");
      assert Join(parts, ",") == parts[0] + "," + j;
      Assoc3(parts[0], ",", j, close);
    }
  }

  lemma JoinFirst(parts: seq<string>, close: string)
    requires |parts| >= 1 && parts[0] != []
    ensures (Join(parts, ",") + close)[0] == parts[0][0]
  {
    JoinHead(parts, close);
  }

  lemma MemberShape(k: string, t: string, tail: string)
    ensures Quote(k) + ":" + t + tail == ['"'] + (Escape(k) + "\"" + (":" + (t + tail)))
  {
  }

  /** `parts` are the member texts of keys `ks` with value texts `texts` that read back as `vs`. */
  ghost predicate MemberParts(ks: seq<string>, vs: seq<Value>, texts: seq<string>, parts: seq<string>) {
    |ks| == |vs| == |texts| == |parts| &&
    (forall i | 0 <= i < |parts| :: parts[i] == Quote(ks[i]) + ":" + texts[i]) &&
    (forall i | 0 <= i < |texts| :: texts[i] != [] && !IsWs(texts[i][0])) &&
    (forall i, r | 0 <= i < |texts| && Delim(r) :: ParseValue(texts[i] + r) == Ok((vs[i], r)))
  }

  lemma MemberPartsTail(ks: seq<string>, vs: seq<Value>, texts: seq<string>, parts: seq<string>)
    requires MemberParts(ks, vs, texts, parts) && |ks| >= 1
    ensures MemberParts(ks[1..], vs[1..], texts[1..], parts[1..])
  {
  }

  lemma MemberPartsHead(ks: seq<string>, vs: seq<Value>, texts: seq<string>, parts: seq<string>, tail: string)
    requires MemberParts(ks, vs, texts, parts) && |ks| >= 1 && Delim(tail)
    ensures parts[0] + tail == ['"'] + (Escape(ks[0]) + "\"" + (":" + (texts[0] + tail)))
    ensures texts[0] != [] && !IsWs(texts[0][0])
    ensures ParseValue(texts[0] + tail) == Ok((vs[0], tail))
    ensures parts[0][0] == '"'
  {
    MemberShape(ks[0], texts[0], tail);
  }

  lemma MembersOne(ks: seq<string>, vs: seq<Value>, texts: seq<string>, parts: seq<string>, rest: string)
    requires MemberParts(ks, vs, texts, parts) && |ks| == 1
    ensures ParseMembers((Join(parts, ",") + ("}" + rest))[1..]) == Ok((Zip(ks, vs), rest))
  {
    var x := texts[0] + ("}" + rest);
    MemberPartsHead(ks, vs, texts, parts, "}" + rest);
    var s := Escape(ks[0]) + "\"" + (":" + x);
    assert (Join(parts, ",") + ("}" + rest))[1..] == s;
    EscapeReadsBack(ks[0], ":" + x);
    MemberLast(s, ks[0], x, vs[0], rest);
    assert [(ks[0], vs[0])] == Zip(ks, vs);
  }

  /** The first member of several, followed by the rest of the object text `more`. */
  lemma MembersConsHead(ks: seq<string>, vs: seq<Value>, texts: seq<string>, parts: seq<string>, rest: string)
    requires MemberParts(ks, vs, texts, parts) && |ks| >= 2
    ensures var more := Join(parts[1..], ",") + ("}" + rest);
      var x := texts[0] + ("," + more);
      var s := (Join(parts, ",") + ("}" + rest))[1..];
      ParseStringBody(s) == Ok((ks[0], ":" + x)) && x != [] && !IsWs(x[0]) &&
      ParseValue(x) == Ok((vs[0], "," + more))
  {
    JoinHead(parts, "}" + rest);
    var more := Join(parts[1..], ",") + ("}" + rest);
    var x := texts[0] + ("," + more);
    assert Delim("," + more);
    MemberPartsHead(ks, vs, texts, parts, "," + more);
    var s := Escape(ks[0]) + "\"" + (":" + x);
    assert (Join(parts, ",") + ("}" + rest))[1..] == s;
    EscapeReadsBack(ks[0], ":" + x);
  }

  lemma ZipCons(ks: seq<string>, vs: seq<Value>)
    requires |ks| == |vs| >= 1
    ensures [(ks[0], vs[0])] + Zip(ks[1..], vs[1..]) == Zip(ks, vs)
  {
  }

  lemma MembersCons(ks: seq<string>, vs: seq<Value>, texts: seq<string>, parts: seq<string>, rest: string)
    requires MemberParts(ks, vs, texts, parts) && |ks| >= 2
    requires MemberParts(ks[1..], vs[1..], texts[1..], parts[1..])
    requires ParseMembers((Join(parts[1..], ",") + ("}" + rest))[1..]) == Ok((Zip(ks[1..], vs[1..]), rest))
    ensures ParseMembers((Join(parts, ",") + ("}" + rest))[1..]) == Ok((Zip(ks, vs), rest))
  {
    MembersConsHead(ks, vs, texts, parts, rest);
    var more := Join(parts[1..], ",") + ("}" + rest);
    var x := texts[0] + ("," + more);
    JoinHead(parts[1..], "}" + rest);
    MemberPartsHead(ks[1..], vs[1..], texts[1..], parts[1..], "}" + rest);
    assert more[0] == '"';
    MemberNext((Join(parts, ",") + ("}" + rest))[1..], ks[0], x, vs[0], more, (Zip(ks[1..], vs[1..]), rest));
    ZipCons(ks, vs);
  }

  /** Member texts `"key":value` that each read back join into the members of an object. */
  lemma {:induction false} MembersReadBack(ks: seq<string>, vs: seq<Value>, texts: seq<string>, parts: seq<string>, rest: string)
    requires MemberParts(ks, vs, texts, parts) && |ks| >= 1
    ensures ParseMembers((Join(parts, ",") + ("}" + rest))[1..]) == Ok((Zip(ks, vs), rest))
  {
    if |ks| == 1 {
      MembersOne(ks, vs, texts, parts, rest);
    } else {
      MemberPartsTail(ks, vs, texts, parts);
      MembersReadBack(ks[1..], vs[1..], texts[1..], parts[1..], rest);
      MembersCons(ks, vs, texts, parts, rest);
    }
  }

  /** The key/value pairs of a dict in insertion order, as `d.items()`. */
  function Entries(o: Obj): (ps: seq<(string, Value)>)
    requires KeysMatch(o)
    ensures |ps| == |o.keys|
  {
    seq(|o.keys|, i requires 0 <= i < |o.keys| => (o.keys[i], o.vals[o.keys[i]]))
  }

  function Restrict(o: Obj, ks: seq<string>): map<string, Value>
    requires forall k | k in ks :: k in o.vals
  {
    map k | k in ks :: o.vals[k]
  }

  lemma RestrictExtend(o: Obj, n: nat)
    requires KeysMatch(o) && 0 < n <= |o.keys|
    ensures o.keys[n - 1] !in Restrict(o, o.keys[..n - 1])
    ensures o.keys[..n - 1] + [o.keys[n - 1]] == o.keys[..n]
    ensures Restrict(o, o.keys[..n - 1])[o.keys[n - 1] := o.vals[o.keys[n - 1]]] == Restrict(o, o.keys[..n])
  {
    var k := o.keys[n - 1];
    assert forall j | 0 <= j < n - 1 :: o.keys[j] != k;
    assert o.keys[..n - 1] + [k] == o.keys[..n];
  }

  lemma {:induction false} FromPairsPrefix(o: Obj, n: nat)
    requires KeysMatch(o) && n <= |o.keys|
    ensures FromPairs(Entries(o)[..n]) == Obj(o.keys[..n], Restrict(o, o.keys[..n]))
  {
    if n == 0 {
      assert Entries(o)[..0] == [];
      assert Restrict(o, o.keys[..0]) == map[];
    } else {
      var e := Entries(o)[..n];
      var k := o.keys[n - 1];
      FromPairsPrefix(o, n - 1);
      assert e[..n - 1] == Entries(o)[..n - 1];
      assert e[n - 1] == (k, o.vals[k]);
      RestrictExtend(o, n);
      assert FromPairs(e) == Set(Obj(o.keys[..n - 1], Restrict(o, o.keys[..n - 1])), k, o.vals[k]);
    }
  }

  /** Assigning the items of a well-formed dict in order rebuilds it exactly. */
  lemma FromPairsEntries(o: Obj)
    requires KeysMatch(o)
    ensures FromPairs(Entries(o)) == o
  {
    FromPairsPrefix(o, |o.keys|);
    assert Entries(o)[..|o.keys|] == Entries(o);
    assert o.keys[..|o.keys|] == o.keys;
    assert Restrict(o, o.keys) == o.vals;
  }

  lemma ObjectMembers(body: string, ps: seq<(string, Value)>, rest: string)
    requires body != [] && body[0] == '"'
    requires ParseMembers(body[1..]) == Ok((ps, rest))
    ensures ParseObject(body) == Ok((FromPairs(ps), rest))
  {
  }

  lemma ObjectEmpty(rest: string)
    ensures ParseObject("}" + rest) == Ok((EmptyObj, rest))
  {
    assert ("}" + rest)[1..] == rest;
  }

  lemma ValueOfObject(body: string, o: Obj, rest: string)
    requires ParseObject(body) == Ok((o, rest))
    ensures ParseValue("{" + body) == Ok((Dict(o), rest))
  {
    assert ("{" + body)[1..] == body;
  }

  /** Member texts whose values each read back meet `MemberParts`. */
  lemma PartsReadBack(ks: seq<string>, vs: seq<Value>, texts: seq<string>, parts: seq<string>)
    requires |ks| == |vs| == |texts| == |parts|
    requires forall i | 0 <= i < |vs| :: ReadsBack(vs[i]) && texts[i] == Dump(vs[i])
    requires forall i | 0 <= i < |parts| :: parts[i] == Quote(ks[i]) + ":" + texts[i]
    ensures MemberParts(ks, vs, texts, parts)
  {
    forall i | 0 <= i < |texts| ensures texts[i] != [] && !IsWs(texts[i][0]) {
      DumpStart(vs[i]);
    }
    forall i, r | 0 <= i < |texts| && Delim(r) ensures ParseValue(texts[i] + r) == Ok((vs[i], r)) {
      UseReadsBack(vs[i], r);
    }
  }

  /** The values of a dict in key order. */
  lemma DictVals(o: Obj) returns (vs: seq<Value>)
    requires KeysMatch(o)
    ensures |vs| == |o.keys|
    ensures forall i | 0 <= i < |vs| :: vs[i] == o.vals[o.keys[i]]
    ensures Zip(o.keys, vs) == Entries(o)
  {
    vs := seq(|o.keys|, i requires 0 <= i < |o.keys| => o.vals[o.keys[i]]);
  }

  /** The dict's member texts, with the values reading back, meet `MemberParts`. */
  lemma DictParts(o: Obj, vs: seq<Value>) returns (texts: seq<string>)
    requires Dumpable(Dict(o))
    requires forall k | k in o.vals :: ReadsBack(o.vals[k])
    requires |vs| == |o.keys| && forall i | 0 <= i < |vs| :: vs[i] == o.vals[o.keys[i]]
    ensures MemberParts(o.keys, vs, texts, MemberTexts(o, o.keys))
  {
    var ks := o.keys;
    assert forall i | 0 <= i < |vs| :: ReadsBack(vs[i]);
    texts := seq(|ks|, i requires 0 <= i < |ks| => Dump(vs[i]));
    PartsReadBack(ks, vs, texts, MemberTexts(o, ks));
  }

  /** A dict with sorted keys is written in its own key order. */
  lemma DictText(o: Obj, rest: string)
    requires Dumpable(Dict(o)) && StrictlySorted(o.keys)
    ensures Dump(Dict(o)) + rest == "{" + (Join(MemberTexts(o, o.keys), ",") + ("}" + rest))
  {
    var j := Join(MemberTexts(o, o.keys), ",");
    assert Dump(Dict(o)) == "{" + j + "}" by {
      SortStringsOfStrict(o.keys);
    }
    Assoc3("{", j, "}", rest);
  }

  /** The members of a non-empty dict read back as its entries. */
  lemma MembersOfDict(o: Obj, rest: string)
    requires Dumpable(Dict(o)) && o.keys != []
    requires forall k | k in o.vals :: ReadsBack(o.vals[k])
    ensures var body := Join(MemberTexts(o, o.keys), ",") + ("}" + rest);
      body[0] == '"' && ParseMembers(body[1..]) == Ok((Entries(o), rest))
  {
    var ks := o.keys;
    var vs := DictVals(o);
    var texts := DictParts(o, vs);
    var parts := MemberTexts(o, ks);
    MemberPartsHead(ks, vs, texts, parts, "}" + rest);
    JoinHead(parts, "}" + rest);
    MembersReadBack(ks, vs, texts, parts, rest);
  }

  lemma DictReadsBack(o: Obj, rest: string)
    requires Dumpable(Dict(o)) && StrictlySorted(o.keys)
    requires forall k | k in o.vals :: ReadsBack(o.vals[k])
    ensures ParseValue(Dump(Dict(o)) + rest) == Ok((Dict(o), rest))
  {
    DictText(o, rest);
    var body := Join(MemberTexts(o, o.keys), ",") + ("}" + rest);
    if o.keys == [] {
      assert body == "}" + rest;
      ObjectEmpty(rest);
      assert o == EmptyObj;
    } else {
      MembersOfDict(o, rest);
      ObjectMembers(body, Entries(o), rest);
      FromPairsEntries(o);
    }
    ValueOfObject(body, o, rest);
  }

  // ---------------------------------------------------------------------
  // Every canonical value

  /** Every canonical value reads back from its text, whatever delimiter follows. */
  lemma {:induction false} ValueReadsBack(v: Value)
    requires Canonical(v)
    ensures ReadsBack(v)
  {
    CanonicalIsDumpable(v);
    match v
    case Null =>
      forall r | Delim(r) ensures ParseValue(Dump(v) + r) == Ok((v, r)) {
        LiteralReadsBack(v, r);
      }
    case Bool(_) =>
      forall r | Delim(r) ensures ParseValue(Dump(v) + r) == Ok((v, r)) {
        LiteralReadsBack(v, r);
      }
    case Int(i) =>
      forall r | Delim(r) ensures ParseValue(Dump(v) + r) == Ok((v, r)) {
        IntReadsBack(i, r);
      }
    case Str(t) =>
      forall r | Delim(r) ensures ParseValue(Dump(v) + r) == Ok((v, r)) {
        QuoteReadsBack(t, r);
      }
    case List(items) =>
      forall i | 0 <= i < |items| ensures ReadsBack(items[i]) {
        ValueReadsBack(items[i]);
      }
      forall r | Delim(r) ensures ParseValue(Dump(v) + r) == Ok((v, r)) {
        ListReadsBack(items, r);
      }
    case Dict(o) =>
      forall k | k in o.vals ensures ReadsBack(o.vals[k]) {
        ValueReadsBack(o.vals[k]);
      }
      forall r | Delim(r) ensures ParseValue(Dump(v) + r) == Ok((v, r)) {
        DictReadsBack(o, r);
      }
  }

  /** `json.loads` of the canonical text gives the value back. */
  lemma LoadsDump(v: Value)
    requires Canonical(v)
    ensures Dumpable(v) && Loads(Dump(v)) == Ok(v)
  {
    CanonicalIsDumpable(v);
    DumpStart(v);
    ValueReadsBack(v);
    UseReadsBack(v, "");
    assert Dump(v) + "" == Dump(v);
  }

  /** A ledger line -- the text and its newline -- reads back too. */
  lemma LoadsLine(v: Value)
    requires Canonical(v)
    ensures Dumpable(v) && Loads(Dump(v) + "\n") == Ok(v)
  {
    CanonicalIsDumpable(v);
    DumpStart(v);
    ValueReadsBack(v);
    UseReadsBack(v, "\n");
    assert SkipWs("\n") == SkipWs("\n"[1..]);
  }
}
