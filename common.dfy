/**
 * Values and helpers shared by every LifeOS model module: an Option type,
 * the Python string operations the scripts rely on (strip, lower, replace,
 * split, join, title-casing, integer formatting and parsing, substring
 * tests) and the sequence folds (filter, count, concatenation) that the
 * loops of the scripts are proved against.
 */
module Common {

  datatype Option<T> = None | Some(value: T) {
    function GetOr(default: T): T {
      if Some? then value else default
    }
  }

  /** Python's truthiness of an optional string: a missing value and "" are both false. */
  predicate Truthy(s: Option<string>) {
    s.Some? && s.value != ""
  }

  // ---------------------------------------------------------------------
  // Characters

  /** The characters Python's str.isspace() (and hence str.strip() and the
      regular-expression class \s on str patterns) treats as whitespace. */
  predicate IsSpace(c: char) {
    c == ' ' || ('\t' <= c <= '\r') || ('\U{1c}' <= c <= '\U{1f}')
    || c == '\U{85}' || c == '\U{a0}' || c == '\U{1680}'
    || ('\U{2000}' <= c <= '\U{200a}') || c == '\U{2028}' || c == '\U{2029}'
    || c == '\U{202f}' || c == '\U{205f}' || c == '\U{3000}'
  }

  predicate IsDigit(c: char) {
    '0' <= c <= '9'
  }

  predicate IsUpperAscii(c: char) {
    'A' <= c <= 'Z'
  }

  predicate IsLowerAscii(c: char) {
    'a' <= c <= 'z'
  }

  predicate IsLetterAscii(c: char) {
    IsUpperAscii(c) || IsLowerAscii(c)
  }

  /** A character of the regular-expression class \w (ASCII part). */
  predicate IsWordChar(c: char) {
    IsLetterAscii(c) || IsDigit(c) || c == '_'
  }

  function LowerChar(c: char): (r: char)
    ensures !IsUpperAscii(r)
    ensures IsUpperAscii(c) || r == c
  {
    if IsUpperAscii(c) then (c as int + 32) as char else c
  }

  function UpperChar(c: char): (r: char)
    ensures !IsLowerAscii(r)
    ensures IsLowerAscii(c) || r == c
  {
    if IsLowerAscii(c) then (c as int - 32) as char else c
  }

  // ---------------------------------------------------------------------
  // Strings

  /** str.lower() on the ASCII letters. */
  function Lower(s: string): (r: string)
    ensures |r| == |s|
    ensures forall i :: 0 <= i < |s| ==> r[i] == LowerChar(s[i])
  {
    seq(|s|, i requires 0 <= i < |s| => LowerChar(s[i]))
  }

  /** str.replace(a, b) for single characters. */
  function ReplaceChar(s: string, a: char, b: char): (r: string)
    ensures |r| == |s|
    ensures forall i :: 0 <= i < |s| ==> r[i] == (if s[i] == a then b else s[i])
  {
    seq(|s|, i requires 0 <= i < |s| => if s[i] == a then b else s[i])
  }

  /** str.replace(pat, rep): every non-overlapping occurrence, scanned left to right. */
  function ReplaceAll(s: string, pat: string, rep: string): (r: string)
    requires |pat| > 0
    ensures |rep| <= |pat| ==> |r| <= |s|
    decreases |s|
  {
    if s == [] then []
    else if pat <= s then rep + ReplaceAll(s[|pat|..], pat, rep)
    else [s[0]] + ReplaceAll(s[1..], pat, rep)
  }

  /** `sub in s` for Python strings (and lists). */
  predicate Contains<T(==)>(s: seq<T>, sub: seq<T>)
    decreases |s|
  {
    sub <= s || (|s| > 0 && Contains(s[1..], sub))
  }

  lemma {:induction false} ContainsLength<T>(s: seq<T>, sub: seq<T>)
    requires Contains(s, sub)
    ensures |sub| <= |s|
    decreases |s|
  {
    if !(sub <= s) {
      ContainsLength(s[1..], sub);
    }
  }

  lemma {:induction false} ContainsSuffix<T>(s: seq<T>, sub: seq<T>)
    ensures Contains(s + sub, sub)
    decreases |s|
  {
    if s != [] {
      assert (s + sub)[1..] == s[1..] + sub;
      ContainsSuffix(s[1..], sub);
    } else {
      assert s + sub == sub;
    }
  }

  /** `any(w in s for w in words)`. */
  predicate ContainsAny(s: string, words: seq<string>) {
    exists w :: w in words && Contains(s, w)
  }

  function LStrip(s: string): (r: string)
    ensures |r| <= |s|
    ensures r == [] || !IsSpace(r[0])
  {
    if s != [] && IsSpace(s[0]) then LStrip(s[1..]) else s
  }

  function RStrip(s: string): (r: string)
    ensures |r| <= |s|
    ensures r == [] || !IsSpace(r[|r| - 1])
  {
    if s != [] && IsSpace(s[|s| - 1]) then RStrip(s[..|s| - 1]) else s
  }

  /** Stripping keeps a contiguous part of the text, starting where the left
      strip starts. */
  lemma {:induction false} StripKeepsMiddle(s: string)
    ensures |s| - |LStrip(s)| + |Strip(s)| <= |s|
    ensures Strip(s) == s[|s| - |LStrip(s)|..|s| - |LStrip(s)| + |Strip(s)|]
  {
    LStripSuffix(s);
    RStripPrefix(LStrip(s));
  }

  lemma {:induction false} LStripSuffix(s: string)
    ensures LStrip(s) == s[|s| - |LStrip(s)|..]
  {
    if s != [] && IsSpace(s[0]) {
      LStripSuffix(s[1..]);
    }
  }

  lemma {:induction false} RStripPrefix(s: string)
    ensures RStrip(s) == s[..|RStrip(s)|]
  {
    if s != [] && IsSpace(s[|s| - 1]) {
      RStripPrefix(s[..|s| - 1]);
    }
  }

  /** str.strip(): drop leading and trailing whitespace, keep the middle. */
  function Strip(s: string): (r: string)
    ensures |r| <= |s|
    ensures r == [] || (!IsSpace(r[0]) && !IsSpace(r[|r| - 1]))
    ensures (s == [] || (!IsSpace(s[0]) && !IsSpace(s[|s| - 1]))) ==> r == s
  {
    var l := LStrip(s);
    RStripPrefix(l);
    RStrip(l)
  }

  /** Stripping only removes characters. */
  lemma StripSubset(s: string)
    ensures forall c :: c in Strip(s) ==> c in s
  {
    StripKeepsMiddle(s);
    var r := Strip(s);
    var i := |s| - |LStrip(s)|;
    forall c | c in r ensures c in s {
      var k :| 0 <= k < |r| && r[k] == c;
      assert c == s[i + k];
    }
  }

  /** sep.join(parts). */
  function Join(sep: string, parts: seq<string>): string {
    if |parts| == 0 then ""
    else if |parts| == 1 then parts[0]
    else parts[0] + sep + Join(sep, parts[1..])
  }

  /** Python str.title() on ASCII: a letter is upper-cased when the character
      before it is not a letter, lower-cased otherwise; other characters are
      kept. Non-ASCII characters count as uncased. */
  function Title(s: string): (r: string)
    ensures |r| == |s|
    ensures forall i :: 0 <= i < |s| && IsLetterAscii(s[i]) ==>
              r[i] == (if i > 0 && IsLetterAscii(s[i - 1]) then LowerChar(s[i]) else UpperChar(s[i]))
    ensures forall i :: 0 <= i < |s| && !IsLetterAscii(s[i]) ==> r[i] == s[i]
  {
    TitleAfter(s, false)
  }

  function TitleAfter(s: string, prevCased: bool): (r: string)
    ensures |r| == |s|
    ensures s != [] && IsLetterAscii(s[0]) && !prevCased ==> r[0] == UpperChar(s[0])
    ensures forall i :: 0 < i < |s| && IsLetterAscii(s[i]) && IsLetterAscii(s[i - 1]) ==> r[i] == LowerChar(s[i])
    ensures forall i :: 0 < i < |s| && IsLetterAscii(s[i]) && !IsLetterAscii(s[i - 1]) ==> r[i] == UpperChar(s[i])
    ensures forall i :: 0 <= i < |s| && !IsLetterAscii(s[i]) ==> r[i] == s[i]
  {
    if s == [] then []
    else
      var c := s[0];
      var d := if IsLetterAscii(c) then (if prevCased then LowerChar(c) else UpperChar(c)) else c;
      var rest := TitleAfter(s[1..], IsLetterAscii(c));
      assert forall i :: 0 < i < |s| ==> s[i] == s[1..][i - 1];
      [d] + rest
  }

  /** re.split on a character class: the pieces between delimiters, empty ones included. */
  function SplitOnAny(s: string, delims: set<char>): (r: seq<string>)
    ensures |r| >= 1
  {
    SplitFrom(s, delims, "")
  }

  function SplitFrom(s: string, delims: set<char>, cur: string): (r: seq<string>)
    ensures |r| >= 1
    decreases |s|
  {
    if s == [] then [cur]
    else if s[0] in delims then [cur] + SplitFrom(s[1..], delims, "")
    else SplitFrom(s[1..], delims, cur + [s[0]])
  }

  /** Number of characters of s that belong to cs. */
  function CountIn(s: string, cs: set<char>): nat {
    if s == [] then 0 else (if s[0] in cs then 1 else 0) + CountIn(s[1..], cs)
  }

  lemma {:induction false} SplitPieces(s: string, delims: set<char>, cur: string)
    requires forall c :: c in cur ==> c !in delims
    ensures |SplitFrom(s, delims, cur)| == CountIn(s, delims) + 1
    ensures forall i :: 0 <= i < |SplitFrom(s, delims, cur)| ==>
              forall c :: c in SplitFrom(s, delims, cur)[i] ==> c !in delims
    decreases |s|
  {
    if s != [] {
      if s[0] in delims {
        SplitPieces(s[1..], delims, "");
        var r := SplitFrom(s, delims, cur);
        assert r == [cur] + SplitFrom(s[1..], delims, "");
        forall i | 0 < i < |r| ensures r[i] == SplitFrom(s[1..], delims, "")[i - 1] { }
      } else {
        SplitPieces(s[1..], delims, cur + [s[0]]);
      }
    }
  }

  /** `s.split(sep)` for a one-character separator. */
  function Lines(s: string): (r: seq<string>)
    ensures |r| >= 1
  {
    SplitOnAny(s, {'\n'})
  }

  /** Splitting at a delimiter placed between two texts splits each of them. */
  lemma {:induction false} SplitAtDelimiter(a: string, d: char, b: string, delims: set<char>, cur: string)
    requires d in delims
    ensures SplitFrom(a + [d] + b, delims, cur) == SplitFrom(a, delims, cur) + SplitFrom(b, delims, "")
    decreases |a|
  {
    if a == [] {
      assert a + [d] + b == [d] + b;
      assert ([d] + b)[1..] == b;
    } else {
      assert (a + [d] + b)[1..] == a[1..] + [d] + b;
      if a[0] in delims {
        SplitAtDelimiter(a[1..], d, b, delims, "");
      } else {
        SplitAtDelimiter(a[1..], d, b, delims, cur + [a[0]]);
      }
    }
  }

  /** The lines of a text, a line break and more text. */
  lemma LinesAppend(a: string, b: string)
    ensures Lines(a + "\n" + b) == Lines(a) + Lines(b)
  {
    SplitAtDelimiter(a, '\n', b, {'\n'}, "");
  }

  lemma {:induction false} CountInAppend(a: string, b: string, cs: set<char>)
    ensures CountIn(a + b, cs) == CountIn(a, cs) + CountIn(b, cs)
  {
    if a != [] {
      assert (a + b)[0] == a[0] && (a + b)[1..] == a[1..] + b;
      CountInAppend(a[1..], b, cs);
    } else {
      assert a + b == b;
    }
  }

  lemma {:induction false} CountInNone(s: string, cs: set<char>)
    requires forall c :: c in s ==> c !in cs
    ensures CountIn(s, cs) == 0
  {
    if s != [] {
      assert forall c :: c in s[1..] ==> c in s;
      CountInNone(s[1..], cs);
    }
  }

  /** A text has one line more than it has line breaks. */
  lemma LineCount(s: string)
    ensures |Lines(s)| == CountIn(s, {'\n'}) + 1
  {
    SplitPieces(s, {'\n'}, "");
  }

  lemma {:induction false} LinePiece(s: string, cur: string)
    requires forall i :: 0 <= i < |s| ==> s[i] != '\n'
    ensures SplitFrom(s, {'\n'}, cur) == [cur + s]
    decreases |s|
  {
    if s != [] {
      assert s[0] != '\n';
      LinePiece(s[1..], cur + [s[0]]);
      assert cur + [s[0]] + s[1..] == cur + s;
    } else {
      assert cur + s == cur;
    }
  }

  /** Lines joined by "\n", none holding a newline, read back as the same lines. */
  lemma {:induction false} JoinedLines(parts: seq<string>)
    requires |parts| >= 1
    requires forall k :: 0 <= k < |parts| ==> '\n' !in parts[k]
    ensures Lines(Join("\n", parts)) == parts
  {
    LinePiece(parts[0], "");
    assert "" + parts[0] == parts[0];
    if |parts| > 1 {
      JoinedLines(parts[1..]);
      LinesAppend(parts[0], Join("\n", parts[1..]));
      assert parts == [parts[0]] + parts[1..];
    }
  }

  // ---------------------------------------------------------------------
  // Integers as decimal text

  function DigitChar(d: nat): (c: char)
    requires d < 10
    ensures IsDigit(c)
  {
    ('0' as int + d) as char
  }

  function DigitValue(c: char): (d: nat)
    requires IsDigit(c)
    ensures d < 10
  {
    c as int - '0' as int
  }

  predicate AllDigits(s: string) {
    forall i :: 0 <= i < |s| ==> IsDigit(s[i])
  }

  /** str(n) for a natural number. */
  function NatToString(n: nat): (r: string)
    ensures |r| >= 1 && AllDigits(r)
    ensures n > 0 ==> r[0] != '0'
  {
    if n < 10 then [DigitChar(n)] else NatToString(n / 10) + [DigitChar(n % 10)]
  }

  /** str(i) for any integer. */
  function IntToString(i: int): (r: string)
    ensures |r| >= 1
  {
    if i < 0 then "-" + NatToString(-i) else NatToString(i)
  }

  /** int(s) for a string of decimal digits (leading zeros allowed). */
  function ParseDigits(s: string): (n: nat)
    requires AllDigits(s)
  {
    if s == [] then 0 else ParseDigits(s[..|s| - 1]) * 10 + DigitValue(s[|s| - 1])
  }

  lemma {:induction false} ParseNatToString(n: nat)
    ensures ParseDigits(NatToString(n)) == n
  {
    var r := NatToString(n);
    if n >= 10 {
      ParseNatToString(n / 10);
      assert r[..|r| - 1] == NatToString(n / 10);
    }
  }

  /** 2 ** n. */
  function Pow2(n: nat): (p: nat)
    ensures p >= 1
  {
    if n == 0 then 1 else 2 * Pow2(n - 1)
  }

  function Zeros(k: nat): (r: string)
    ensures |r| == k && AllDigits(r)
  {
    seq(k, i => '0')
  }

  /** f"{n:0{width}d}": n in decimal, padded on the left with zeros to width. */
  function ZeroPad(n: nat, width: nat): (r: string)
    ensures AllDigits(r)
    ensures |r| == if |NatToString(n)| < width then width else |NatToString(n)|
  {
    var s := NatToString(n);
    if |s| < width then Zeros(width - |s|) + s else s
  }

  lemma {:induction false} ParseLeadingZeros(k: nat, s: string)
    requires AllDigits(s)
    ensures AllDigits(Zeros(k) + s) && ParseDigits(Zeros(k) + s) == ParseDigits(s) + 0
    decreases |s|
  {
    var z := Zeros(k) + s;
    assert AllDigits(z);
    if s == [] {
      assert z == Zeros(k);
      ZerosParse(k);
    } else {
      assert z[..|z| - 1] == Zeros(k) + s[..|s| - 1];
      ParseLeadingZeros(k, s[..|s| - 1]);
    }
  }

  lemma {:induction false} ZerosParse(k: nat)
    ensures ParseDigits(Zeros(k)) == 0
  {
    if k > 0 {
      assert Zeros(k)[..k - 1] == Zeros(k - 1);
      ZerosParse(k - 1);
    }
  }

  /** Reading a zero-padded number back gives the number. */
  lemma ParseZeroPad(n: nat, width: nat)
    ensures ParseDigits(ZeroPad(n, width)) == n
  {
    var s := NatToString(n);
    ParseNatToString(n);
    if |s| < width {
      assert ZeroPad(n, width) == Zeros(width - |s|) + s;
      ParseLeadingZeros(width - |s|, s);
    } else {
      assert ZeroPad(n, width) == s;
    }
  }

  // ---------------------------------------------------------------------
  // Sequences

  predicate Distinct<T(==)>(s: seq<T>) {
    forall i, j :: 0 <= i < j < |s| ==> s[i] != s[j]
  }

  /** [x for x in s if p(x)], kept in order. */
  function Filter<T>(s: seq<T>, p: T -> bool): (r: seq<T>)
    ensures |r| <= |s|
    ensures forall i :: 0 <= i < |r| ==> p(r[i])
  {
    if s == [] then [] else Filter(s[..|s| - 1], p) + (if p(s[|s| - 1]) then [s[|s| - 1]] else [])
  }

  /** Filtering one more element of a prefix. */
  lemma FilterStep<T>(s: seq<T>, p: T -> bool, i: nat)
    requires i < |s|
    ensures Filter(s[..i + 1], p) == Filter(s[..i], p) + (if p(s[i]) then [s[i]] else [])
  {
    assert s[..i + 1][..i] == s[..i];
  }

  lemma {:induction false} FilterMembership<T>(s: seq<T>, p: T -> bool, x: T)
    ensures x in Filter(s, p) <==> x in s && p(x)
  {
    if s != [] {
      FilterMembership(s[..|s| - 1], p, x);
      assert s == s[..|s| - 1] + [s[|s| - 1]];
    }
  }

  lemma {:induction false} FilterAppend<T>(a: seq<T>, b: seq<T>, p: T -> bool)
    ensures Filter(a + b, p) == Filter(a, p) + Filter(b, p)
    decreases |b|
  {
    if b == [] {
      assert a + b == a;
    } else {
      assert (a + b)[..|a + b| - 1] == a + b[..|b| - 1];
      FilterAppend(a, b[..|b| - 1], p);
    }
  }

  /** Filtering depends only on which elements pass. */
  lemma {:induction false} FilterSame<T>(s: seq<T>, p: T -> bool, q: T -> bool)
    requires forall x :: p(x) == q(x)
    ensures Filter(s, p) == Filter(s, q)
  {
    if s != [] {
      FilterSame(s[..|s| - 1], p, q);
    }
  }

  /** A condition every element passes keeps the whole list. */
  lemma {:induction false} FilterAll<T>(s: seq<T>, p: T -> bool)
    requires forall x :: p(x)
    ensures Filter(s, p) == s
  {
    if s != [] {
      FilterAll(s[..|s| - 1], p);
      assert s == s[..|s| - 1] + [s[|s| - 1]];
    }
  }

  /** Filtering twice is filtering once by both conditions. */
  lemma {:induction false} FilterFilter<T>(s: seq<T>, p: T -> bool, q: T -> bool, both: T -> bool)
    requires forall x :: both(x) == (p(x) && q(x))
    ensures Filter(Filter(s, p), q) == Filter(s, both)
  {
    if s != [] {
      var init, x := s[..|s| - 1], s[|s| - 1];
      FilterFilter(init, p, q, both);
      FilterAppend(Filter(init, p), if p(x) then [x] else [], q);
      if p(x) {
        assert Filter([x], q) == (if q(x) then [x] else []) by {
          assert [x][..0] == [];
        }
      }
    }
  }

  /** A weaker condition keeps at least as many elements. */
  lemma {:induction false} FilterMonotone<T>(s: seq<T>, p: T -> bool, q: T -> bool)
    requires forall x :: p(x) ==> q(x)
    ensures |Filter(s, p)| <= |Filter(s, q)|
  {
    if s != [] {
      FilterMonotone(s[..|s| - 1], p, q);
    }
  }

  /** The filtered elements together with the rejected ones are the original, as a multiset. */
  lemma {:induction false} FilterPartition<T>(s: seq<T>, p: T -> bool, q: T -> bool)
    requires forall x :: q(x) == !p(x)
    ensures multiset(Filter(s, p)) + multiset(Filter(s, q)) == multiset(s)
  {
    if s != [] {
      FilterPartition(s[..|s| - 1], p, q);
      assert s == s[..|s| - 1] + [s[|s| - 1]];
    }
  }

  /** The concatenation of a list of pages, as `for page in pages: out.extend(page)`. */
  function Concat<T>(ss: seq<seq<T>>): (r: seq<T>)
    ensures ss == [] ==> r == []
  {
    if ss == [] then [] else Concat(ss[..|ss| - 1]) + ss[|ss| - 1]
  }

  lemma {:induction false} ConcatMembership<T>(ss: seq<seq<T>>, x: T)
    ensures x in Concat(ss) <==> exists i :: 0 <= i < |ss| && x in ss[i]
  {
    if ss != [] {
      ConcatMembership(ss[..|ss| - 1], x);
      var last := |ss| - 1;
      if x in ss[last] {
        assert x in Concat(ss);
      }
      if exists i :: 0 <= i < |ss| && x in ss[i] {
        var i :| 0 <= i < |ss| && x in ss[i];
        if i < last {
          assert x in ss[..last][i];
        }
      }
    }
  }

  /** The elements f maps to Some, in order: a loop that skips some inputs
      and converts the rest. */
  function FilterMap<A, B>(s: seq<A>, f: A -> Option<B>): (r: seq<B>)
    ensures |r| <= |s|
  {
    if s == [] then []
    else FilterMap(s[..|s| - 1], f) + (if f(s[|s| - 1]).Some? then [f(s[|s| - 1]).value] else [])
  }

  lemma {:induction false} FilterMapMembership<A, B>(s: seq<A>, f: A -> Option<B>, y: B)
    ensures y in FilterMap(s, f) <==> exists i :: 0 <= i < |s| && f(s[i]) == Some(y)
  {
    if s != [] {
      var n := |s| - 1;
      FilterMapMembership(s[..n], f, y);
      var init := FilterMap(s[..n], f);
      var last := if f(s[n]).Some? then [f(s[n]).value] else [];
      assert FilterMap(s, f) == init + last;
      if y in FilterMap(s, f) {
        if y in init {
          var i :| 0 <= i < n && f(s[..n][i]) == Some(y);
          assert s[i] == s[..n][i];
        } else {
          assert f(s[n]) == Some(y);
        }
      }
      if exists i :: 0 <= i < |s| && f(s[i]) == Some(y) {
        var i :| 0 <= i < |s| && f(s[i]) == Some(y);
        if i < n {
          assert s[..n][i] == s[i];
        }
      }
    }
  }

  /** The number of elements whose key is k. */
  function CountKey<T>(s: seq<T>, key: T -> string, k: string): (n: nat)
    ensures n <= |s|
    ensures n == 0 <==> forall i :: 0 <= i < |s| ==> key(s[i]) != k
  {
    if s == [] then 0 else CountKey(s[..|s| - 1], key, k) + (if key(s[|s| - 1]) == k then 1 else 0)
  }

  /** The keys that occur in s. */
  function KeySet<T>(s: seq<T>, key: T -> string): set<string> {
    set i | 0 <= i < |s| :: key(s[i])
  }

  /** Sum of CountKey over a list of keys. */
  function SumCounts<T>(s: seq<T>, key: T -> string, ks: seq<string>): nat {
    if ks == [] then 0 else CountKey(s, key, ks[0]) + SumCounts(s, key, ks[1..])
  }

  function Occurrences(ks: seq<string>, k: string): nat {
    if ks == [] then 0 else (if ks[0] == k then 1 else 0) + Occurrences(ks[1..], k)
  }

  lemma {:induction false} OccurrencesDistinct(ks: seq<string>, k: string)
    requires Distinct(ks)
    ensures Occurrences(ks, k) == if k in ks then 1 else 0
  {
    if ks != [] {
      OccurrencesDistinct(ks[1..], k);
      if ks[0] == k {
        assert k !in ks[1..] by {
          forall j | 0 <= j < |ks[1..]| ensures ks[1..][j] != k {
            assert ks[1..][j] == ks[j + 1];
          }
        }
      }
    }
  }

  lemma {:induction false} SumCountsStep<T>(s: seq<T>, x: T, key: T -> string, ks: seq<string>)
    ensures SumCounts(s + [x], key, ks) == SumCounts(s, key, ks) + Occurrences(ks, key(x))
  {
    if ks != [] {
      assert (s + [x])[..|s + [x]| - 1] == s;
      SumCountsStep(s, x, key, ks[1..]);
    }
  }

  /** The per-key counts of a list add up to its length, when every key that
      occurs is listed exactly once. */
  lemma {:induction false} SumCountsIsLength<T>(s: seq<T>, key: T -> string, ks: seq<string>)
    requires Distinct(ks)
    requires forall i :: 0 <= i < |s| ==> key(s[i]) in ks
    ensures SumCounts(s, key, ks) == |s|
  {
    if s == [] {
      SumCountsEmpty(key, ks);
    } else {
      var init, x := s[..|s| - 1], s[|s| - 1];
      assert s == init + [x];
      SumCountsIsLength(init, key, ks);
      SumCountsStep(init, x, key, ks);
      OccurrencesDistinct(ks, key(x));
    }
  }

  /** The count of every key that occurs, as `d[k] = d.get(k, 0) + 1` builds it. */
  function Tally<T>(s: seq<T>, key: T -> string): map<string, nat> {
    if s == [] then map[]
    else
      var before := Tally(s[..|s| - 1], key);
      var k := key(s[|s| - 1]);
      before[k := (if k in before then before[k] else 0) + 1]
  }

  /** The tally lists exactly the keys that occur, each with its count. */
  lemma {:induction false} TallyIsCount<T>(s: seq<T>, key: T -> string, k: string)
    ensures k in Tally(s, key) <==> k in KeySet(s, key)
    ensures k in Tally(s, key) ==> Tally(s, key)[k] == CountKey(s, key, k)
    ensures k !in Tally(s, key) ==> CountKey(s, key, k) == 0
  {
    if s != [] {
      var init := s[..|s| - 1];
      TallyIsCount(init, key, k);
      assert KeySet(s, key) == KeySet(init, key) + {key(s[|s| - 1])} by {
        assert forall i :: 0 <= i < |init| ==> s[i] == init[i];
      }
    }
  }

  /** The values of a map over a list of keys, added up. */
  function SumOver(m: map<string, nat>, ks: seq<string>): nat {
    if ks == [] then 0 else (if ks[0] in m then m[ks[0]] else 0) + SumOver(m, ks[1..])
  }

  lemma {:induction false} SumOverTally<T>(s: seq<T>, key: T -> string, ks: seq<string>)
    ensures SumOver(Tally(s, key), ks) == SumCounts(s, key, ks)
  {
    if ks != [] {
      TallyIsCount(s, key, ks[0]);
      SumOverTally(s, key, ks[1..]);
    }
  }

  /** A tally's counts add up to the length of the list. */
  lemma TallySumsToLength<T>(s: seq<T>, key: T -> string, ks: seq<string>)
    requires Distinct(ks) && (set k | k in ks) == Tally(s, key).Keys
    ensures SumOver(Tally(s, key), ks) == |s|
  {
    SumOverTally(s, key, ks);
    forall i | 0 <= i < |s| ensures key(s[i]) in ks {
      TallyIsCount(s, key, key(s[i]));
      assert key(s[i]) in KeySet(s, key);
    }
    SumCountsIsLength(s, key, ks);
  }

  lemma {:induction false} SumCountsEmpty<T>(key: T -> string, ks: seq<string>)
    ensures SumCounts([], key, ks) == 0
  {
    if ks != [] {
      SumCountsEmpty(key, ks[1..]);
    }
  }
}
