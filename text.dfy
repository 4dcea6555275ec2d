/**
  String helpers with the meaning Python gives them: `str.isspace`, `strip`,
  `rstrip(c)`, `startswith`, `split(sep)`, `sep.join`, decimal rendering of
  integers, and the code-point-wise ordering that `sorted` uses on strings.
*/
module Text {

  /** Python's `str.isspace` for one character. */
  predicate IsSpace(c: char) {
    ('\t' <= c <= '\r') || ('\U{1C}' <= c <= '\U{1F}') || c == ' '
    || c == '\U{85}' || c == '\U{A0}' || c == '\U{1680}'
    || ('\U{2000}' <= c <= '\U{200A}') || c == '\U{2028}' || c == '\U{2029}'
    || c == '\U{202F}' || c == '\U{205F}' || c == '\U{3000}'
  }

  function LStrip(s: string): (r: string)
    ensures |r| <= |s| && r == s[|s| - |r|..]
    ensures r == [] || !IsSpace(r[0])
    ensures forall i :: 0 <= i < |s| - |r| ==> IsSpace(s[i])
  {
    if s == [] || !IsSpace(s[0]) then s else LStrip(s[1..])
  }

  function RStrip(s: string): (r: string)
    ensures |r| <= |s| && r == s[..|r|]
    ensures r == [] || !IsSpace(r[|r| - 1])
    ensures forall i :: |r| <= i < |s| ==> IsSpace(s[i])
  {
    if s == [] || !IsSpace(s[|s| - 1]) then s else RStrip(s[..|s| - 1])
  }

  /** Python's `str.strip()`: remove leading and trailing whitespace. */
  function Strip(s: string): string {
    RStrip(LStrip(s))
  }

  predicate NoEdgeSpace(s: string) {
    s == [] || (!IsSpace(s[0]) && !IsSpace(s[|s| - 1]))
  }

  lemma StripShape(s: string)
    ensures NoEdgeSpace(Strip(s))
    ensures Strip(s) == [] <==> forall i :: 0 <= i < |s| ==> IsSpace(s[i])
  {
    var l := LStrip(s);
    var r := RStrip(l);
    var k := |s| - |l|;
    if r != [] {
      assert r[0] == l[0] == s[k];
    } else {
      forall i | 0 <= i < |s| ensures IsSpace(s[i]) {
        if i >= k {
          assert s[i] == l[i - k];
        }
      }
    }
  }

  /** A string without edge whitespace is its own strip. */
  lemma StripNoEdge(s: string)
    requires NoEdgeSpace(s)
    ensures Strip(s) == s
  {
  }

  /** Python's `str.rstrip(c)` for a single character `c`. */
  function RStripChar(s: string, c: char): (r: string)
    ensures |r| <= |s| && r == s[..|r|]
    ensures r == [] || r[|r| - 1] != c
  {
    if s == [] || s[|s| - 1] != c then s else RStripChar(s[..|s| - 1], c)
  }

  /** `rstrip(c)` removes copies of `c` and nothing else. */
  lemma {:induction false} RStripCharRemoved(s: string, c: char)
    ensures s == RStripChar(s, c) + Repeat(c, |s| - |RStripChar(s, c)|)
  {
    if s != [] && s[|s| - 1] == c {
      var s' := s[..|s| - 1];
      RStripCharRemoved(s', c);
      var r := RStripChar(s', c);
      assert s == s' + [c];
      assert Repeat(c, |s| - |r|) == Repeat(c, |s'| - |r|) + [c] by {
        RepeatSnoc(c, |s| - |r|);
      }
    } else {
      assert s + Repeat(c, 0) == s;
    }
  }

  /** Stripping `c` from `a + b` strips `b` first and reaches into `a` only when all of `b` went. */
  lemma {:induction false} RStripCharConcat(a: string, b: string, c: char)
    ensures RStripChar(a + b, c) == if RStripChar(b, c) == [] then RStripChar(a, c) else a + RStripChar(b, c)
    decreases |b|
  {
    if b == [] {
      assert a + b == a;
    } else if b[|b| - 1] != c {
    } else {
      assert (a + b)[..|a + b| - 1] == a + b[..|b| - 1];
      RStripCharConcat(a, b[..|b| - 1], c);
    }
  }

  predicate StartsWith(s: string, p: string) {
    |p| <= |s| && s[..|p|] == p
  }

  /** Python's `s.split(sep)` for a one-character separator. */
  function Split(s: string, sep: char): (parts: seq<string>)
    ensures |parts| >= 1
    ensures forall i :: 0 <= i < |parts| ==> sep !in parts[i]
  {
    if s == [] then [""]
    else if s[0] == sep then [""] + Split(s[1..], sep)
    else
      var rest := Split(s[1..], sep);
      [[s[0]] + rest[0]] + rest[1..]
  }

  /** No piece of a split holds a character the string does not. */
  lemma {:induction false} SplitAvoids(s: string, sep: char, c: char)
    requires c !in s
    ensures forall i | 0 <= i < |Split(s, sep)| :: c !in Split(s, sep)[i]
  {
    if s != [] {
      assert c !in s[1..];
      SplitAvoids(s[1..], sep, c);
    }
  }

  /** Stripping keeps out a character the string does not hold. */
  lemma StripAvoids(s: string, c: char)
    requires c !in s
    ensures c !in Strip(s)
  {
    var l := LStrip(s);
    assert l == s[|s| - |l|..];
    assert c !in l;
    assert RStrip(l) == l[..|RStrip(l)|];
  }

  /** Python's `sep.join(parts)`. */
  function Join(parts: seq<string>, sep: string): string {
    if parts == [] then ""
    else if |parts| == 1 then parts[0]
    else parts[0] + sep + Join(parts[1..], sep)
  }

  /** Joining the pieces of a split gives the string back. */
  lemma {:induction false} JoinSplit(s: string, sep: char)
    ensures Join(Split(s, sep), [sep]) == s
  {
    if s == [] {
    } else if s[0] == sep {
      JoinSplit(s[1..], sep);
      var rest := Split(s[1..], sep);
      assert Split(s, sep) == [""] + rest;
      assert Join([""] + rest, [sep]) == "" + [sep] + Join(rest, [sep]);
    } else {
      JoinSplit(s[1..], sep);
      var rest := Split(s[1..], sep);
      var parts := [[s[0]] + rest[0]] + rest[1..];
      assert Split(s, sep) == parts;
      if |rest| == 1 {
        assert Join(parts, [sep]) == [s[0]] + rest[0];
      } else {
        assert parts[1..] == rest[1..];
        assert Join(parts, [sep]) == [s[0]] + rest[0] + [sep] + Join(rest[1..], [sep]);
        assert Join(rest, [sep]) == rest[0] + [sep] + Join(rest[1..], [sep]);
      }
    }
  }

  /** Splitting a join of separator-free pieces gives the pieces back. */
  lemma {:induction false} SplitJoin(parts: seq<string>, sep: char)
    requires |parts| >= 1
    requires forall i :: 0 <= i < |parts| ==> sep !in parts[i]
    ensures Split(Join(parts, [sep]), sep) == parts
    decreases |Join(parts, [sep])|, |parts[0]|
  {
    var p := parts[0];
    if |parts| == 1 {
      SplitNoSep(p, sep);
    } else if p == [] {
      var tail := Join(parts[1..], [sep]);
      assert Join(parts, [sep]) == [sep] + tail;
      assert ([sep] + tail)[1..] == tail;
      SplitJoin(parts[1..], sep);
    } else {
      var s := Join(parts, [sep]);
      var parts' := [p[1..]] + parts[1..];
      assert parts'[1..] == parts[1..];
      assert Join(parts', [sep]) == p[1..] + [sep] + Join(parts[1..], [sep]);
      assert s == p + [sep] + Join(parts[1..], [sep]);
      assert s[0] == p[0] && s[0] != sep;
      assert s[1..] == Join(parts', [sep]);
      assert p[1..] == parts'[0];
      SplitJoin(parts', sep);
      assert [p[0]] + p[1..] == p;
    }
  }

  lemma {:induction false} SplitNoSep(s: string, sep: char)
    requires sep !in s
    ensures Split(s, sep) == [s]
  {
    if s != [] {
      assert sep !in s[1..];
      SplitNoSep(s[1..], sep);
      assert [s[0]] + s[1..] == s;
    }
  }

  // ---------------------------------------------------------------------
  // Decimal digits

  predicate IsDigit(c: char) {
    '0' <= c <= '9'
  }

  predicate AllDigits(s: string) {
    forall i :: 0 <= i < |s| ==> IsDigit(s[i])
  }

  function DigitChar(d: nat): (c: char)
    requires d < 10
    ensures IsDigit(c)
  {
    ('0' as int + d) as char
  }

  function DigitOf(c: char): (d: nat)
    requires IsDigit(c)
    ensures d < 10
  {
    (c as int - '0' as int) as nat
  }

  lemma DigitRoundTrip(d: nat)
    requires d < 10
    ensures DigitOf(DigitChar(d)) == d
  {
  }

  /** Decimal rendering of a natural number, as Python's `str(n)`. */
  function NatToString(n: nat): (s: string)
    ensures |s| >= 1 && AllDigits(s)
  {
    if n < 10 then [DigitChar(n)] else NatToString(n / 10) + [DigitChar(n % 10)]
  }

  /** Python's `str(i)` for any integer. */
  function IntToString(i: int): string {
    if i < 0 then "-" + NatToString(-i) else NatToString(i)
  }

  /** The number a string of decimal digits denotes (leading zeros allowed). */
  function DigitsValue(s: string): nat
    requires AllDigits(s)
  {
    if s == [] then 0 else DigitsValue(s[..|s| - 1]) * 10 + DigitOf(s[|s| - 1])
  }

  /** `NatToString` has no superfluous leading zero and reads back as its argument. */
  lemma {:induction false} NatToStringValue(n: nat)
    ensures DigitsValue(NatToString(n)) == n
    ensures NatToString(n)[0] != '0' || n == 0
  {
    if n >= 10 {
      NatToStringValue(n / 10);
      var s := NatToString(n);
      assert s[..|s| - 1] == NatToString(n / 10);
      DigitRoundTrip(n % 10);
    } else {
      DigitRoundTrip(n);
    }
  }

  /** `NatToString` starts with a zero only when it renders zero itself. */
  lemma {:induction false} NatToStringLeading(n: nat)
    ensures NatToString(n)[0] != '0' || NatToString(n) == "0"
    ensures NatToString(n) == "0" ==> n == 0
  {
    if n >= 10 {
      NatToStringLeading(n / 10);
      assert NatToString(n)[0] == NatToString(n / 10)[0];
    }
  }

  lemma NatToStringInjective(m: nat, n: nat)
    requires NatToString(m) == NatToString(n)
    ensures m == n
  {
    NatToStringValue(m);
    NatToStringValue(n);
  }

  function Repeat(c: char, n: nat): (s: string)
    ensures |s| == n && forall i :: 0 <= i < n ==> s[i] == c
  {
    if n == 0 then "" else [c] + Repeat(c, n - 1)
  }

  lemma RepeatSnoc(c: char, n: nat)
    requires n >= 1
    ensures Repeat(c, n) == Repeat(c, n - 1) + [c]
    ensures Repeat(c, n) == [c] + Repeat(c, n - 1)
  {
    if n > 1 {
      RepeatSnoc(c, n - 1);
    }
  }

  /** Left-pad `s` with `c` to at least `width` characters. */
  function PadLeft(s: string, width: nat, c: char): (r: string)
    ensures |r| == if |s| >= width then |s| else width
    ensures r == Repeat(c, |r| - |s|) + s
  {
    if |s| >= width then Repeat(c, 0) + s else Repeat(c, width - |s|) + s
  }

  /** Leading zeros do not change the value of a digit string. */
  lemma {:induction false} DigitsValueLeadingZeros(z: nat, s: string)
    requires AllDigits(s)
    ensures AllDigits(Repeat('0', z) + s)
    ensures DigitsValue(Repeat('0', z) + s) == DigitsValue(s)
    decreases |s|
  {
    var t := Repeat('0', z) + s;
    assert AllDigits(t) by {
      forall i | 0 <= i < |t| ensures IsDigit(t[i]) {
        if i >= z {
          assert t[i] == s[i - z];
        }
      }
    }
    if s == [] {
      assert t == Repeat('0', z);
      ZerosValue(z);
    } else {
      assert t[..|t| - 1] == Repeat('0', z) + s[..|s| - 1];
      DigitsValueLeadingZeros(z, s[..|s| - 1]);
    }
  }

  lemma {:induction false} ZerosValue(z: nat)
    ensures AllDigits(Repeat('0', z)) && DigitsValue(Repeat('0', z)) == 0
  {
    if z > 0 {
      var t := Repeat('0', z);
      assert t[..|t| - 1] == Repeat('0', z - 1);
      ZerosValue(z - 1);
    }
  }

  function Pow10(n: nat): (p: nat)
    ensures p >= 1
  {
    if n == 0 then 1 else 10 * Pow10(n - 1)
  }

  lemma {:induction false} Pow10Add(m: nat, n: nat)
    ensures Pow10(m + n) == Pow10(m) * Pow10(n)
  {
    if n > 0 {
      Pow10Add(m, n - 1);
      assert Pow10(m + n) == 10 * Pow10(m + n - 1);
      assert 10 * (Pow10(m) * Pow10(n - 1)) == Pow10(m) * (10 * Pow10(n - 1));
    }
  }

  /** `v` followed by `k` zero digits, that is v * 10^k. */
  function Shift(v: nat, k: nat): nat {
    if k == 0 then v else 10 * Shift(v, k - 1)
  }

  /** The value of a concatenation of digit strings: the left part shifted by the length of the right. */
  lemma {:induction false} DigitsValueConcat(a: string, b: string)
    requires AllDigits(a) && AllDigits(b)
    ensures AllDigits(a + b)
    ensures DigitsValue(a + b) == Shift(DigitsValue(a), |b|) + DigitsValue(b)
    decreases |b|
  {
    var t := a + b;
    assert AllDigits(t) by {
      forall i | 0 <= i < |t| ensures IsDigit(t[i]) {
        if i >= |a| {
          assert t[i] == b[i - |a|];
        }
      }
    }
    if b == [] {
      assert t == a;
    } else {
      var b' := b[..|b| - 1];
      assert t[..|t| - 1] == a + b';
      DigitsValueConcat(a, b');
      assert t[|t| - 1] == b[|b| - 1];
    }
  }

  lemma {:induction false} ShiftIsProduct(v: nat, k: nat)
    ensures (v as real) * (Pow10(k) as real) == Shift(v, k) as real
  {
    if k > 0 {
      ShiftIsProduct(v, k - 1);
      assert (v as real) * (10.0 * (Pow10(k - 1) as real)) == 10.0 * ((v as real) * (Pow10(k - 1) as real));
    }
  }

  lemma {:induction false} DigitsValueBound(s: string)
    requires AllDigits(s)
    ensures DigitsValue(s) < Pow10(|s|)
  {
    if s != [] {
      DigitsValueBound(s[..|s| - 1]);
    }
  }

  /** A digit string of value zero consists of zeros only. */
  lemma {:induction false} ZeroValueIsZeros(s: string)
    requires AllDigits(s) && DigitsValue(s) == 0
    ensures forall i :: 0 <= i < |s| ==> s[i] == '0'
  {
    if s != [] {
      ZeroValueIsZeros(s[..|s| - 1]);
      forall i | 0 <= i < |s| ensures s[i] == '0' {
        if i < |s| - 1 {
          assert s[i] == s[..|s| - 1][i];
        }
      }
    }
  }

  lemma DivTen(v: nat, d: nat)
    requires d < 10
    ensures (v * 10 + d) / 10 == v && (v * 10 + d) % 10 == d
  {
  }

  /** A digit string without a superfluous leading zero is the rendering of its value. */
  lemma {:induction false} CanonicalDigits(s: string)
    requires s != [] && AllDigits(s) && (s[0] != '0' || |s| == 1)
    ensures NatToString(DigitsValue(s)) == s
  {
    if |s| == 1 {
      assert s[..0] == [];
      assert DigitsValue(s) == DigitOf(s[0]);
    } else {
      var s' := s[..|s| - 1];
      assert s'[0] == s[0];
      CanonicalDigits(s');
      var v := DigitsValue(s');
      assert v >= 1 by {
        if v == 0 {
          ZeroValueIsZeros(s');
        }
      }
      var d := DigitOf(s[|s| - 1]);
      assert DigitsValue(s) == v * 10 + d;
      DivTen(v, d);
      assert DigitChar(d) == s[|s| - 1];
      assert s == s' + [s[|s| - 1]];
    }
  }

  // ---------------------------------------------------------------------
  // The ordering Python's `sorted` uses on strings

  /** `a < b` on Python strings: code-point-wise lexicographic order. */
  predicate StrLess(a: string, b: string) {
    if a == [] then b != []
    else if b == [] then false
    else if a[0] != b[0] then a[0] < b[0]
    else StrLess(a[1..], b[1..])
  }

  lemma {:induction false} StrLessIrreflexive(a: string)
    ensures !StrLess(a, a)
  {
    if a != [] {
      StrLessIrreflexive(a[1..]);
    }
  }

  lemma {:induction false} StrLessTransitive(a: string, b: string, c: string)
    requires StrLess(a, b) && StrLess(b, c)
    ensures StrLess(a, c)
  {
    if a != [] && b != [] && c != [] && a[0] == b[0] && b[0] == c[0] {
      StrLessTransitive(a[1..], b[1..], c[1..]);
    }
  }

  lemma {:induction false} StrLessTotal(a: string, b: string)
    requires a != b
    ensures StrLess(a, b) || StrLess(b, a)
  {
    if a != [] && b != [] && a[0] == b[0] {
      assert a == [a[0]] + a[1..] && b == [b[0]] + b[1..];
      StrLessTotal(a[1..], b[1..]);
    }
  }

  lemma StrLessAsymmetric(a: string, b: string)
    requires StrLess(a, b)
    ensures !StrLess(b, a)
  {
    if StrLess(b, a) {
      StrLessTransitive(a, b, a);
      StrLessIrreflexive(a);
    }
  }

  predicate StrLeq(a: string, b: string) {
    a == b || StrLess(a, b)
  }

  /** Sorted in non-decreasing order. */
  predicate Sorted(s: seq<string>) {
    forall i, j :: 0 <= i < j < |s| ==> StrLeq(s[i], s[j])
  }

  /** Sorted in increasing order, hence without repetitions. */
  predicate StrictlySorted(s: seq<string>) {
    forall i, j :: 0 <= i < j < |s| ==> StrLess(s[i], s[j])
  }

  predicate Distinct<T(==)>(s: seq<T>) {
    forall i, j :: 0 <= i < j < |s| ==> s[i] != s[j]
  }

  /** Putting a string no greater than the head in front of a sorted list keeps it sorted. */
  lemma SortedFront(x: string, s: seq<string>)
    requires Sorted(s) && s != [] && StrLeq(x, s[0])
    ensures Sorted([x] + s)
  {
    forall i, j | 0 <= i < j < |[x] + s| ensures StrLeq(([x] + s)[i], ([x] + s)[j]) {
      if i == 0 && j > 1 && x != s[0] && s[0] != s[j - 1] {
        StrLessTransitive(x, s[0], s[j - 1]);
      }
    }
  }

  /** The head of a sorted list, put back in front of its sorted tail with `x` inserted, where `x` is above it. */
  lemma SortedBehind(s: seq<string>, x: string, rest: seq<string>)
    requires Sorted(s) && s != [] && StrLess(s[0], x)
    requires Sorted(rest) && multiset(rest) == multiset(s[1..]) + multiset{x}
    ensures Sorted([s[0]] + rest)
  {
    forall j | 0 <= j < |rest| ensures StrLeq(s[0], rest[j]) {
      assert rest[j] in multiset(rest);
      if rest[j] != x {
        assert rest[j] in multiset(s[1..]);
        var k :| 0 <= k < |s[1..]| && s[1..][k] == rest[j];
        assert s[k + 1] == rest[j];
      }
    }
  }

  /** A list is its head followed by its tail. */
  lemma HeadTail<T>(s: seq<T>)
    requires s != []
    ensures [s[0]] + s[1..] == s
  {
  }

  /** A list's multiset is its head's plus its tail's. */
  lemma MultisetCons<T>(s: seq<T>)
    requires s != []
    ensures multiset(s) == multiset{s[0]} + multiset(s[1..])
  {
    assert s == [s[0]] + s[1..];
  }

  /** A list's multiset is its front's plus its last element's. */
  lemma MultisetSnoc<T>(s: seq<T>)
    requires s != []
    ensures multiset(s) == multiset(s[..|s| - 1]) + multiset{s[|s| - 1]}
  {
    assert s == s[..|s| - 1] + [s[|s| - 1]];
  }

  function Insert(x: string, s: seq<string>): (r: seq<string>)
    requires Sorted(s)
    ensures Sorted(r) && multiset(r) == multiset(s) + multiset{x}
  {
    if s == [] then [x]
    else if StrLeq(x, s[0]) then
      SortedFront(x, s);
      [x] + s
    else
      var rest := Insert(x, s[1..]);
      MultisetCons(s);
      StrLessTotal(x, s[0]);
      SortedBehind(s, x, rest);
      [s[0]] + rest
  }

  /** Python's `sorted` on a list of strings (insertion sort). */
  function SortStrings(s: seq<string>): (r: seq<string>)
    ensures Sorted(r) && multiset(r) == multiset(s) && |r| == |s|
  {
    if s == [] then []
    else
      MultisetSnoc(s);
      Insert(s[|s| - 1], SortStrings(s[..|s| - 1]))
  }

  lemma DistinctMultiset<T>(s: seq<T>, t: seq<T>)
    requires Distinct(s) && multiset(s) == multiset(t)
    ensures Distinct(t)
  {
    forall i, j | 0 <= i < j < |t| ensures t[i] != t[j] {
      if t[i] == t[j] {
        var x := t[i];
        assert multiset(t)[x] >= 2 by {
          assert t == t[..i] + [x] + t[i + 1..j] + [x] + t[j + 1..];
        }
        MultiplicityOfDistinct(s, x);
      }
    }
  }

  lemma {:induction false} MultiplicityOfDistinct<T>(s: seq<T>, x: T)
    requires Distinct(s)
    ensures multiset(s)[x] <= 1
  {
    if s != [] {
      assert s == [s[0]] + s[1..];
      MultiplicityOfDistinct(s[1..], x);
      if s[0] == x {
        assert x !in s[1..];
      }
    }
  }

  /** Sorting keys without repetitions gives them in increasing order. */
  lemma SortedDistinctIsStrict(s: seq<string>)
    requires Sorted(s) && Distinct(s)
    ensures StrictlySorted(s)
  {
  }

  lemma StrictlySortedFirst(s: seq<string>, x: string)
    requires StrictlySorted(s) && x in s
    ensures StrLeq(s[0], x)
  {
  }

  /** A strictly sorted list is determined by its set of elements. */
  lemma {:induction false} StrictlySortedUnique(s: seq<string>, t: seq<string>)
    requires StrictlySorted(s) && StrictlySorted(t)
    requires forall x :: x in s <==> x in t
    ensures s == t
    decreases |s|
  {
    assert s != [] ==> s[0] in s;
    assert t != [] ==> t[0] in t;
    if s != [] && t != [] {
      StrictlySortedFirst(s, t[0]);
      StrictlySortedFirst(t, s[0]);
      if s[0] != t[0] {
        StrLessAsymmetric(s[0], t[0]);
      }
      forall x ensures x in s[1..] <==> x in t[1..] {
        StrLessIrreflexive(s[0]);
        if x in s[1..] {
          var k :| 1 <= k < |s| && s[k] == x;
          assert x in t && x != t[0];
        }
        if x in t[1..] {
          var k :| 1 <= k < |t| && t[k] == x;
          assert x in s && x != s[0];
        }
      }
      StrictlySortedUnique(s[1..], t[1..]);
      assert s == [s[0]] + s[1..] && t == [t[0]] + t[1..];
    }
  }

  /** Sorting a strictly sorted list leaves it unchanged. */
  lemma SortStringsOfStrict(s: seq<string>)
    requires StrictlySorted(s)
    ensures SortStrings(s) == s
  {
    var r := SortStrings(s);
    forall i, j | 0 <= i < j < |s| ensures s[i] != s[j] {
      StrLessIrreflexive(s[i]);
    }
    DistinctMultiset(s, r);
    SortedDistinctIsStrict(r);
    forall x ensures x in r <==> x in s {
      assert x in r <==> x in multiset(r);
      assert x in s <==> x in multiset(s);
    }
    StrictlySortedUnique(r, s);
  }

  /** The order of the input does not matter to `SortStrings` when there are no repetitions. */
  lemma SortStringsPermutation(s: seq<string>, t: seq<string>)
    requires Distinct(s) && (forall x :: x in s <==> x in t) && |s| == |t|
    ensures SortStrings(s) == SortStrings(t)
  {
    var rs, rt := SortStrings(s), SortStrings(t);
    DistinctMultiset(s, rs);
    SortedDistinctIsStrict(rs);
    assert Distinct(t) by {
      var ss, ts := set x | x in s, set x | x in t;
      assert ss == ts;
      DistinctCard(s);
      assert |ts| == |t| by { assert |ss| == |s|; }
      CardDistinct(t);
    }
    DistinctMultiset(t, rt);
    SortedDistinctIsStrict(rt);
    forall x ensures x in rs <==> x in rt {
      assert x in rs <==> x in multiset(rs);
      assert x in rt <==> x in multiset(rt);
      assert x in s <==> x in multiset(s);
      assert x in t <==> x in multiset(t);
    }
    StrictlySortedUnique(rs, rt);
  }

  lemma {:induction false} DistinctCard<T>(s: seq<T>)
    requires Distinct(s)
    ensures |set x | x in s| == |s|
  {
    if s != [] {
      DistinctCard(s[1..]);
      assert (set x | x in s) == (set x | x in s[1..]) + {s[0]};
      assert s[0] !in s[1..];
    }
  }

  lemma {:induction false} CardDistinct<T>(s: seq<T>)
    requires |set x | x in s| == |s|
    ensures Distinct(s)
  {
    if s != [] {
      var rest := set x | x in s[1..];
      assert (set x | x in s) == rest + {s[0]};
      assert |rest| <= |s[1..]| by { SetOfSeqCard(s[1..]); }
      assert s[0] !in s[1..];
      CardDistinct(s[1..]);
    }
  }

  lemma {:induction false} SetOfSeqCard<T>(s: seq<T>)
    ensures |set x | x in s| <= |s|
  {
    if s != [] {
      SetOfSeqCard(s[1..]);
      assert (set x | x in s) == (set x | x in s[1..]) + {s[0]};
    }
  }
}
