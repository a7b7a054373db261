/** The JavaScript string operations the portal applies to form input: `trim`, case
    mapping, `includes`, the digit and whitespace regular expressions, `parseInt`,
    the `Number(...)` NaN test and number-to-string conversion. */
module Text {
  import opened Wrappers
  import Seqs

  /** The characters JavaScript's `trim` and the regular-expression class `\s` treat as
      white space (the Unicode space separators, the line terminators, tab, vertical tab,
      form feed and the byte-order mark). */
  predicate IsWhitespace(c: char) {
    c == ' ' || c == '\t' || c == '\n' || c == '\r' || c == '\U{B}' || c == '\U{C}'
    || c == '\U{A0}' || c == '\U{1680}' || ('\U{2000}' <= c <= '\U{200A}')
    || c == '\U{2028}' || c == '\U{2029}' || c == '\U{202F}' || c == '\U{205F}'
    || c == '\U{3000}' || c == '\U{FEFF}'
  }

  /** Where `s.trimStart()` begins: the first index from `i` on that is not white space. */
  function TrimStartIndex(s: string, i: nat): (a: nat)
    requires i <= |s|
    ensures i <= a <= |s|
    ensures forall k :: i <= k < a ==> IsWhitespace(s[k])
    ensures a == |s| || !IsWhitespace(s[a])
    decreases |s| - i
  {
    if i < |s| && IsWhitespace(s[i]) then TrimStartIndex(s, i + 1) else i
  }

  /** `s.trimStart()`: the suffix of `s` left after its leading white space. */
  function TrimStart(s: string): (r: string)
    ensures |r| <= |s|
    ensures forall i :: 0 <= i < |r| ==> r[i] == s[|s| - |r| + i]
    ensures r == [] || !IsWhitespace(r[0])
    ensures s != [] && IsWhitespace(s[0]) ==> |r| < |s|
    ensures s == [] || !IsWhitespace(s[0]) ==> r == s
  {
    s[TrimStartIndex(s, 0)..]
  }

  /** Where `trimEnd` stops, scanning back from `j` but not below `a`. */
  function TrimEndIndex(s: string, a: nat, j: nat): (b: nat)
    requires a <= j <= |s|
    ensures a <= b <= j
    ensures forall k :: b <= k < j ==> IsWhitespace(s[k])
    ensures b == a || !IsWhitespace(s[b - 1])
    decreases j
  {
    if j > a && IsWhitespace(s[j - 1]) then TrimEndIndex(s, a, j - 1) else j
  }

  /** `s.trim()`: `s` without its leading and trailing white space. */
  function Trim(s: string): (r: string)
    ensures |r| <= |s|
    ensures r == [] || (!IsWhitespace(r[0]) && !IsWhitespace(r[|r| - 1]))
  {
    var a := TrimStartIndex(s, 0);
    s[a..TrimEndIndex(s, a, |s|)]
  }

  predicate AllWhitespace(s: string) {
    forall i :: 0 <= i < |s| ==> IsWhitespace(s[i])
  }

  /** `trim` keeps exactly the core between a white-space prefix and a white-space suffix,
      the core being empty or starting and ending with other characters. */
  lemma TrimIsCore(s: string, a: nat, b: nat)
    requires a <= b <= |s|
    requires forall k :: 0 <= k < a ==> IsWhitespace(s[k])
    requires forall k :: b <= k < |s| ==> IsWhitespace(s[k])
    requires a == b || (!IsWhitespace(s[a]) && !IsWhitespace(s[b - 1]))
    ensures Trim(s) == s[a..b]
  {
    var a' := TrimStartIndex(s, 0);
    var b' := TrimEndIndex(s, a', |s|);
  }

  /** Every string is its trimmed core between two runs of white space. */
  lemma TrimSplits(s: string) returns (a: nat, b: nat)
    ensures a <= b <= |s| && Trim(s) == s[a..b]
    ensures AllWhitespace(s[..a]) && AllWhitespace(s[b..])
  {
    a := TrimStartIndex(s, 0);
    b := TrimEndIndex(s, a, |s|);
    forall i | 0 <= i < a ensures IsWhitespace(s[..a][i]) {
      assert s[..a][i] == s[i];
    }
    forall i | 0 <= i < |s| - b ensures IsWhitespace(s[b..][i]) {
      assert s[b..][i] == s[b + i];
    }
  }

  /** `trim` removes nothing from a string that has no white space at its ends. */
  lemma TrimNoOp(s: string)
    requires s == [] || (!IsWhitespace(s[0]) && !IsWhitespace(s[|s| - 1]))
    ensures Trim(s) == s
  {
    TrimIsCore(s, 0, |s|);
  }

  /** Trimming twice is trimming once. */
  lemma TrimIdempotent(s: string)
    ensures Trim(Trim(s)) == Trim(s)
  {
    TrimNoOp(Trim(s));
  }

  /** A string trims to empty exactly when every character of it is white space; this is
      what the form checks `!value.trim()` reject. */
  lemma TrimEmptyIff(s: string)
    ensures Trim(s) == [] <==> AllWhitespace(s)
  {
    var a := TrimStartIndex(s, 0);
    var b := TrimEndIndex(s, a, |s|);
    if Trim(s) == [] {
      assert |s[a..b]| == 0;
      forall i | 0 <= i < |s| ensures IsWhitespace(s[i]) {
      }
    } else {
      assert a < |s| && !IsWhitespace(s[a]);
    }
  }

  /** `trim` strips white-space padding and nothing else. */
  lemma TrimOfPadded(w1: string, u: string, w2: string)
    requires AllWhitespace(w1) && AllWhitespace(w2)
    requires u == [] || (!IsWhitespace(u[0]) && !IsWhitespace(u[|u| - 1]))
    ensures Trim(w1 + u + w2) == u
  {
    var s := w1 + u + w2;
    var a, b := |w1|, |w1| + |u|;
    forall k | 0 <= k < a ensures IsWhitespace(s[k]) {
      assert s[k] == w1[k];
    }
    forall k | b <= k < |s| ensures IsWhitespace(s[k]) {
      assert s[k] == w2[k - b];
    }
    if a < b {
      assert s[a] == u[0] && s[b - 1] == u[|u| - 1];
    }
    TrimIsCore(s, a, b);
    assert s[a..b] == u;
  }

  /** Upper-casing leaves white space where it is, so it commutes with trimming. */
  lemma {:induction false} UpperKeepsWhitespace(s: string)
    ensures AllWhitespace(s) ==> ToUpper(s) == s
  {
    if s != [] {
      assert AllWhitespace(s) ==> AllWhitespace(s[1..]) by {
        if AllWhitespace(s) {
          forall i | 0 <= i < |s| - 1 ensures IsWhitespace(s[1..][i]) {
            assert s[1..][i] == s[i + 1];
          }
        }
      }
      UpperKeepsWhitespace(s[1..]);
    }
  }

  /** `toUpperCase` for one character, over ASCII and Latin-1: a-z, à-þ (except ÷), ÿ and µ
      have single upper-case forms; ß upper-cases to the two letters "SS". */
  function UpperOf(c: char): (r: string)
    ensures |r| >= 1
  {
    if 'a' <= c <= 'z' || ('\U{E0}' <= c <= '\U{FE}' && c != '\U{F7}') then
      [(c as int - 32) as char]
    else if c == '\U{FF}' then ['\U{178}']
    else if c == '\U{B5}' then ['\U{39C}']
    else if c == '\U{DF}' then "SS"
    else [c]
  }

  /** `s.toUpperCase()`. */
  function ToUpper(s: string): (r: string)
    ensures |r| >= |s|
    ensures s == [] <==> r == []
  {
    if s == [] then [] else UpperOf(s[0]) + ToUpper(s[1..])
  }

  lemma UpperOfDistributes(a: string, b: string)
    ensures ToUpper(a + b) == ToUpper(a) + ToUpper(b)
  {
    if a == [] {
      assert a + b == b;
    } else {
      assert (a + b)[0] == a[0];
      assert (a + b)[1..] == a[1..] + b;
      UpperOfDistributes(a[1..], b);
    }
  }

  lemma UpperOfStable(c: char)
    ensures ToUpper(UpperOf(c)) == UpperOf(c)
  {
    var u := UpperOf(c);
    if |u| == 1 {
      assert ToUpper(u) == UpperOf(u[0]) + ToUpper([]);
    } else {
      assert u == ['S'] + ['S'];
      UpperOfDistributes(['S'], ['S']);
    }
  }

  /** Upper-casing an upper-cased string changes nothing, so comparing upper-cased values
      is a comparison of upper-case forms. */
  lemma {:induction false} ToUpperIdempotent(s: string)
    ensures ToUpper(ToUpper(s)) == ToUpper(s)
  {
    if s != [] {
      ToUpperIdempotent(s[1..]);
      UpperOfDistributes(UpperOf(s[0]), ToUpper(s[1..]));
      UpperOfStable(s[0]);
    }
  }

  /** Upper-casing maps white space to itself and any other character to characters that are
      not white space. */
  lemma UpperOfWhitespace(c: char)
    ensures IsWhitespace(c) ==> UpperOf(c) == [c]
    ensures !IsWhitespace(c) ==> forall i :: 0 <= i < |UpperOf(c)| ==> !IsWhitespace(UpperOf(c)[i])
  {
  }

  lemma {:induction false} UpperEnds(u: string)
    requires u != [] && !IsWhitespace(u[0]) && !IsWhitespace(u[|u| - 1])
    ensures ToUpper(u) != [] && !IsWhitespace(ToUpper(u)[0])
    ensures !IsWhitespace(ToUpper(u)[|ToUpper(u)| - 1])
  {
    UpperOfWhitespace(u[0]);
    var n := |u| - 1;
    UpperOfWhitespace(u[n]);
    assert u == u[..n] + [u[n]];
    UpperOfDistributes(u[..n], [u[n]]);
    assert ToUpper([u[n]]) == UpperOf(u[n]) + ToUpper([]);
  }

  lemma {:induction false} UpperOfAllWhitespace(w: string)
    requires AllWhitespace(w)
    ensures ToUpper(w) == w
  {
    UpperKeepsWhitespace(w);
  }

  /** Trimming and upper-casing commute: `s.toUpperCase().trim()` is `s.trim().toUpperCase()`. */
  lemma TrimUpperCommute(s: string)
    ensures Trim(ToUpper(s)) == ToUpper(Trim(s))
  {
    var a, b := TrimSplits(s);
    var core := Trim(s);
    var w1, w2 := s[..a], s[b..];
    assert s == w1 + core + w2;
    var u := ToUpper(core);
    assert ToUpper(s) == w1 + u + w2 by {
      UpperOfDistributes(w1 + core, w2);
      UpperOfDistributes(w1, core);
      UpperOfAllWhitespace(w1);
      UpperOfAllWhitespace(w2);
    }
    if core != [] {
      UpperEnds(core);
    } else {
      assert u == [];
    }
    TrimOfPadded(w1, u, w2);
  }

  /** Upper-cased comparisons see a name and its upper-cased, trimmed form alike. */
  lemma UpperOfNormalisedName(s: string)
    ensures ToUpper(Trim(ToUpper(s))) == ToUpper(Trim(s))
  {
    TrimUpperCommute(s);
    ToUpperIdempotent(Trim(s));
  }

  /** `toLowerCase` for one character, over ASCII and Latin-1: A-Z and À-Þ (except ×). */
  function LowerChar(c: char): (r: char)
    ensures 'a' <= r <= 'z' ==> ('a' <= c <= 'z' || 'A' <= c <= 'Z')
  {
    if 'A' <= c <= 'Z' || ('\U{C0}' <= c <= '\U{DE}' && c != '\U{D7}') then
      (c as int + 32) as char
    else c
  }

  /** `s.toLowerCase()`. */
  function ToLower(s: string): (r: string)
    ensures |r| == |s|
    ensures forall i :: 0 <= i < |s| ==> r[i] == LowerChar(s[i])
  {
    seq(|s|, i requires 0 <= i < |s| => LowerChar(s[i]))
  }

  /** Lower-casing fixes a lower-cased string. */
  lemma ToLowerIdempotent(s: string)
    ensures ToLower(ToLower(s)) == ToLower(s)
  {
  }

  /** `value || fallback`: a blank text field falls back. */
  function Or(value: string, fallback: string): (r: string)
    ensures value != [] ==> r == value
    ensures value == [] ==> r == fallback
  {
    if value != [] then value else fallback
  }

  /** `hay.includes(needle)`. */
  predicate Contains(hay: string, needle: string) {
    exists i :: 0 <= i <= |hay| - |needle| && needle <= hay[i..]
  }

  /** Every string includes the empty string: an empty search box matches everything. */
  lemma ContainsEmpty(hay: string)
    ensures Contains(hay, [])
  {
    assert [] <= hay[0..];
  }

  /** Every string includes itself. */
  lemma ContainsSelf(s: string)
    ensures Contains(s, s)
  {
    assert s <= s[0..];
  }

  predicate IsDigit(c: char) {
    '0' <= c <= '9'
  }

  /** `/^\d+$/.test(s)`. */
  predicate AllDigits(s: string) {
    |s| > 0 && forall i :: 0 <= i < |s| ==> IsDigit(s[i])
  }

  /** `s.replace(/\D/g, '')`: the digits of `s`, in order. */
  function KeepDigits(s: string): (r: string)
    ensures forall i :: 0 <= i < |r| ==> IsDigit(r[i])
    ensures Seqs.IsSubsequence(r, s)
    ensures forall c :: multiset(r)[c] == if IsDigit(c) then multiset(s)[c] else 0
    ensures (forall i :: 0 <= i < |s| ==> IsDigit(s[i])) ==> r == s
  {
    if forall i :: 0 <= i < |s| ==> IsDigit(s[i]) then
      Seqs.FilterKeepsAll(s, IsDigit);
      Seqs.Filter(s, IsDigit)
    else Seqs.Filter(s, IsDigit)
  }

  predicate NotWhitespace(c: char) {
    !IsWhitespace(c)
  }

  /** `s.replace(/\s+/g, '')`: `s` with all of its white space removed. */
  function RemoveWhitespace(s: string): (r: string)
    ensures forall i :: 0 <= i < |r| ==> !IsWhitespace(r[i])
    ensures Seqs.IsSubsequence(r, s)
    ensures forall c :: c in r <==> c in s && !IsWhitespace(c)
    ensures forall c :: multiset(r)[c] == if IsWhitespace(c) then 0 else multiset(s)[c]
  {
    Seqs.Filter(s, NotWhitespace)
  }

  /** `s.replace(/\s+/g, sub)`: every maximal run of white space becomes one `sub`. */
  function ReplaceWhitespaceRuns(s: string, sub: string): (r: string)
    ensures (forall i :: 0 <= i < |sub| ==> !IsWhitespace(sub[i])) ==>
              forall i :: 0 <= i < |r| ==> !IsWhitespace(r[i])
    ensures (forall i :: 0 <= i < |s| ==> !IsWhitespace(s[i])) ==> r == s
    decreases |s|
  {
    if s == [] then []
    else if IsWhitespace(s[0]) then
      var rest := ReplaceWhitespaceRuns(TrimStart(s), sub);
      assert forall i :: 0 <= i < |sub + rest| ==>
        (sub + rest)[i] == if i < |sub| then sub[i] else rest[i - |sub|];
      sub + rest
    else
      var rest := ReplaceWhitespaceRuns(s[1..], sub);
      assert forall i :: 0 < i < |[s[0]] + rest| ==> ([s[0]] + rest)[i] == rest[i - 1];
      [s[0]] + rest
  }

  /** The white-space split of `s.replace(/\s+/g, sub)`: a maximal run `w` of white space
      between `a` and `b` becomes one `sub`, and each side is replaced on its own. */
  lemma {:induction false} ReplaceRunSplits(a: string, w: string, b: string, sub: string)
    requires w != [] && AllWhitespace(w)
    requires a == [] || !IsWhitespace(a[|a| - 1])
    requires b == [] || !IsWhitespace(b[0])
    ensures ReplaceWhitespaceRuns(a + w + b, sub)
            == ReplaceWhitespaceRuns(a, sub) + sub + ReplaceWhitespaceRuns(b, sub)
    decreases |a|
  {
    if a == [] {
      assert a + w + b == w + b;
      ReplaceRunAtStart(w, b, sub);
      ConcatRegroups([], [], sub, ReplaceWhitespaceRuns(b, sub));
    } else {
      var p, a' := ReplaceFirstStep(a, w, b, sub);
      ReplaceRunSplits(a', w, b, sub);
      var ra', rb := ReplaceWhitespaceRuns(a', sub), ReplaceWhitespaceRuns(b, sub);
      ConcatRegroups(p, ra', sub, rb);
    }
  }

  lemma ConcatRegroups(p: string, x: string, y: string, z: string)
    ensures p + (x + y + z) == (p + x) + y + z
  {
  }

  /** The first step of the replacement on a text `a` that ends non-blank: what it writes
      (`p`) and the shorter rest `a'` it goes on with, the same whatever follows `a`. */
  lemma ReplaceFirstStep(a: string, w: string, b: string, sub: string) returns (p: string, a': string)
    requires a != [] && !IsWhitespace(a[|a| - 1])
    ensures |a'| < |a| && (a' == [] || !IsWhitespace(a'[|a'| - 1]))
    ensures ReplaceWhitespaceRuns(a + w + b, sub) == p + ReplaceWhitespaceRuns(a' + w + b, sub)
    ensures ReplaceWhitespaceRuns(a, sub) == p + ReplaceWhitespaceRuns(a', sub)
  {
    if IsWhitespace(a[0]) {
      a' := ReplaceAfterLeadingRun(a, w, b, sub);
      p := sub;
    } else {
      a' := a[1..];
      assert a' == [] || a'[|a'| - 1] == a[|a| - 1];
      ReplaceAfterWord(a, w, b, sub);
      p := [a[0]];
    }
  }

  /** A leading white-space run becomes one `sub`. */
  lemma ReplaceRunAtStart(w: string, b: string, sub: string)
    requires w != [] && AllWhitespace(w)
    requires b == [] || !IsWhitespace(b[0])
    ensures ReplaceWhitespaceRuns(w + b, sub) == sub + ReplaceWhitespaceRuns(b, sub)
  {
    var s := w + b;
    assert s[0] == w[0];
    RunEndsTrimStart(w, b, 0);
    assert TrimStart(s) == b;
    ReplaceStep(s, sub);
  }

  /** Past a leading non-blank, the split is the one of the rest. */
  lemma ReplaceAfterWord(a: string, w: string, b: string, sub: string)
    requires a != [] && !IsWhitespace(a[0])
    ensures ReplaceWhitespaceRuns(a + w + b, sub) == [a[0]] + ReplaceWhitespaceRuns(a[1..] + w + b, sub)
    ensures ReplaceWhitespaceRuns(a, sub) == [a[0]] + ReplaceWhitespaceRuns(a[1..], sub)
  {
    var s := a + w + b;
    assert s[0] == a[0] && s[1..] == a[1..] + w + b;
    ReplaceStep(s, sub);
    ReplaceStep(a, sub);
  }

  /** A leading white-space run inside `a`, which ends non-blank, is replaced the same way
      whatever follows `a`. */
  lemma ReplaceAfterLeadingRun(a: string, w: string, b: string, sub: string) returns (a': string)
    requires a != [] && IsWhitespace(a[0]) && !IsWhitespace(a[|a| - 1])
    ensures a' != [] && |a'| < |a| && !IsWhitespace(a'[|a'| - 1])
    ensures ReplaceWhitespaceRuns(a + w + b, sub) == sub + ReplaceWhitespaceRuns(a' + w + b, sub)
    ensures ReplaceWhitespaceRuns(a, sub) == sub + ReplaceWhitespaceRuns(a', sub)
  {
    var j := TrimStartIndex(a, 0);
    var s := a + w + b;
    assert s == a + (w + b);
    TrimStartInPrefix(a, w + b, 0);
    a' := a[j..];
    assert a'[|a'| - 1] == a[|a| - 1];
    assert s[0] == a[0] && s[j..] == a' + w + b;
    ReplaceStep(s, sub);
    ReplaceStep(a, sub);
  }

  /** One step of `ReplaceWhitespaceRuns`. */
  lemma ReplaceStep(s: string, sub: string)
    requires s != []
    ensures ReplaceWhitespaceRuns(s, sub)
            == if IsWhitespace(s[0]) then sub + ReplaceWhitespaceRuns(TrimStart(s), sub)
               else [s[0]] + ReplaceWhitespaceRuns(s[1..], sub)
  {
  }

  /** `trimStart` of a text that goes on after a non-blank is decided inside it. */
  lemma {:induction false} TrimStartInPrefix(a: string, t: string, i: nat)
    requires i < |a| && !IsWhitespace(a[|a| - 1])
    ensures TrimStartIndex(a + t, i) == TrimStartIndex(a, i) < |a|
    decreases |a| - i
  {
    assert (a + t)[i] == a[i];
    if IsWhitespace(a[i]) {
      TrimStartInPrefix(a, t, i + 1);
    }
  }

  /** `trimStart` stops where a white-space run ends. */
  lemma {:induction false} RunEndsTrimStart(w: string, b: string, i: nat)
    requires AllWhitespace(w) && i <= |w|
    requires b == [] || !IsWhitespace(b[0])
    ensures TrimStartIndex(w + b, i) == |w|
    decreases |w| - i
  {
    if i < |w| {
      assert (w + b)[i] == w[i];
      RunEndsTrimStart(w, b, i + 1);
    } else if b != [] {
      assert (w + b)[i] == b[0];
    }
  }

  function DigitChar(d: nat): (c: char)
    requires d < 10
    ensures IsDigit(c)
  {
    ('0' as int + d) as char
  }

  function DigitValue(c: char): nat
    requires IsDigit(c)
  {
    c as int - '0' as int
  }

  /** The decimal numeral of `n`, without leading zeros (`String(n)`). */
  function NatToString(n: nat): (r: string)
    ensures AllDigits(r)
    ensures |r| > 1 ==> r[0] != '0'
    decreases n
  {
    if n < 10 then [DigitChar(n)] else NatToString(n / 10) + [DigitChar(n % 10)]
  }

  /** `String(i)` for an integer. */
  function IntToString(i: int): (r: string)
    ensures |r| > 0
    ensures i >= 0 ==> AllDigits(r)
    ensures i < 0 ==> r[0] == '-' && AllDigits(r[1..])
  {
    if i >= 0 then NatToString(i) else "-" + NatToString(-i)
  }

  /** The value of a decimal numeral. */
  function DecimalValue(s: string): nat
    requires forall i :: 0 <= i < |s| ==> IsDigit(s[i])
  {
    if s == [] then 0 else DecimalValue(s[..|s| - 1]) * 10 + DigitValue(s[|s| - 1])
  }

  /** Reading back the numeral of `n` gives `n`. */
  lemma {:induction false} DecimalOfNatToString(n: nat)
    ensures DecimalValue(NatToString(n)) == n
    decreases n
  {
    var s := NatToString(n);
    if n >= 10 {
      DecimalOfNatToString(n / 10);
      assert s[..|s| - 1] == NatToString(n / 10);
    } else {
      assert s[..0] == [];
    }
  }

  /** The longest prefix of `s` made of characters satisfying `p`. */
  function PrefixWhile(s: string, p: char -> bool): (r: string)
    ensures r <= s
    ensures forall i :: 0 <= i < |r| ==> p(r[i])
    ensures |r| == |s| || !p(s[|r|])
  {
    if s != [] && p(s[0]) then [s[0]] + PrefixWhile(s[1..], p) else []
  }

  predicate IsHexDigit(c: char) {
    IsDigit(c) || 'a' <= c <= 'f' || 'A' <= c <= 'F'
  }

  function HexValue(s: string): nat
    requires forall i :: 0 <= i < |s| ==> IsHexDigit(s[i])
  {
    if s == [] then 0
    else
      var c := s[|s| - 1];
      assert IsHexDigit(c);
      var d: nat := if IsDigit(c) then DigitValue(c)
               else if 'a' <= c <= 'f' then c as int - 'a' as int + 10
               else c as int - 'A' as int + 10;
      HexValue(s[..|s| - 1]) * 16 + d
  }

  /** The text after one optional leading sign. */
  function Unsigned(t: string): (u: string)
    ensures |u| <= |t|
  {
    if t != [] && (t[0] == '-' || t[0] == '+') then t[1..] else t
  }

  /** The value of the digit prefix of an unsigned text, hexadecimal after `0x`/`0X`;
      `None` when there is no digit. */
  function Magnitude(u: string): Option<nat> {
    if |u| >= 2 && u[0] == '0' && (u[1] == 'x' || u[1] == 'X') then
      var h := PrefixWhile(u[2..], IsHexDigit);
      if h == [] then None else Some(HexValue(h))
    else
      var d := PrefixWhile(u, IsDigit);
      if d == [] then None else Some(DecimalValue(d))
  }

  /** `parseInt(s)` with no radix: leading white space is skipped, one sign is read, a
      `0x`/`0X` prefix selects hexadecimal, and the longest digit prefix is the value;
      `None` is NaN (no digit at all). Trailing garbage is ignored. */
  function ParseInt(s: string): Option<int> {
    var t := TrimStart(s);
    match Magnitude(Unsigned(t))
    case None => None
    case Some(m) => Some(if t != [] && t[0] == '-' then 0 - m else m)
  }

  lemma {:induction false} PrefixOfAll(s: string)
    requires forall i :: 0 <= i < |s| ==> IsDigit(s[i])
    ensures PrefixWhile(s, IsDigit) == s
  {
    if s != [] {
      PrefixOfAll(s[1..]);
      assert s == [s[0]] + s[1..];
    }
  }

  /** A numeral without a `0x` head is read as a decimal numeral. */
  lemma MagnitudeOfNumeral(s: string)
    requires AllDigits(s)
    requires |s| > 1 ==> s[0] != '0'
    ensures Magnitude(s) == Some(DecimalValue(s))
  {
    PrefixOfAll(s);
  }

  /** A decimal numeral reads back as its value: `parseInt(String(n)) === n`. */
  lemma ParseIntOfNatToString(n: nat)
    ensures ParseInt(NatToString(n)) == Some(n)
  {
    var s := NatToString(n);
    assert IsDigit(s[0]);
    assert Unsigned(s) == s;
    assert TrimStart(s) == s;
    MagnitudeOfNumeral(s);
    DecimalOfNatToString(n);
  }

  /** A string without any digit is NaN for `parseInt`. */
  lemma ParseIntNoDigits(s: string)
    requires forall i :: 0 <= i < |s| ==> !IsHexDigit(s[i])
    ensures ParseInt(s) == None
  {
    var u := Unsigned(TrimStart(s));
    assert forall i :: 0 <= i < |u| ==> u[i] in s;
  }

  /** `parseInt(s) || 99`: NaN and zero both fall back to 99. */
  function IntOr99(s: string): (r: int)
    ensures r != 0
    ensures ParseInt(s) == None ==> r == 99
    ensures ParseInt(s).Some? && ParseInt(s).value != 0 ==> r == ParseInt(s).value
  {
    match ParseInt(s)
    case None => 99
    case Some(v) => if v == 0 then 99 else v
  }

  predicate StartsWithDigitRun(s: string) {
    s != [] && IsDigit(s[0])
  }

  /** An unsigned decimal literal: digits with an optional fraction, or a fraction alone,
      then an optional exponent. */
  predicate IsDecimalLiteral(s: string) {
    var intPart := PrefixWhile(s, IsDigit);
    var rest := s[|intPart|..];
    var fracPart := if rest != [] && rest[0] == '.' then PrefixWhile(rest[1..], IsDigit) else [];
    var afterFrac := if rest != [] && rest[0] == '.' then rest[1 + |fracPart|..] else rest;
    (intPart != [] || fracPart != [])
    && (afterFrac == [] || IsExponent(afterFrac))
  }

  predicate IsExponent(s: string) {
    |s| >= 2 && (s[0] == 'e' || s[0] == 'E')
    && var t := if s[1] == '+' || s[1] == '-' then s[2..] else s[1..];
       AllDigits(t)
  }

  predicate IsBinaryDigit(c: char) { c == '0' || c == '1' }
  predicate IsOctalDigit(c: char) { '0' <= c <= '7' }

  /** `!isNaN(Number(s))`: after trimming, the empty string (which is 0), a signed
      decimal literal, a signed `Infinity`, or an unsigned `0x`/`0o`/`0b` literal. */
  predicate NumberIsNumeric(s: string) {
    var t := Trim(s);
    var u := Unsigned(t);
    t == []
    || u == "Infinity"
    || IsDecimalLiteral(u)
    || (|t| > 2 && t[0] == '0' &&
        ((t[1] in "xX" && forall i :: 2 <= i < |t| ==> IsHexDigit(t[i]))
         || (t[1] in "oO" && forall i :: 2 <= i < |t| ==> IsOctalDigit(t[i]))
         || (t[1] in "bB" && forall i :: 2 <= i < |t| ==> IsBinaryDigit(t[i]))))
  }

  /** A numeral is a decimal literal. */
  lemma NumeralIsDecimalLiteral(s: string)
    requires AllDigits(s)
    ensures IsDecimalLiteral(s)
  {
    PrefixOfAll(s);
    assert s[|s|..] == [];
  }

  /** Every decimal numeral is a number for `Number(...)`. */
  lemma NumeralIsNumeric(s: string)
    requires AllDigits(s)
    ensures NumberIsNumeric(s)
  {
    assert !IsWhitespace(s[0]) && !IsWhitespace(s[|s| - 1]);
    TrimNoOp(s);
    assert Unsigned(s) == s;
    NumeralIsDecimalLiteral(s);
  }
}
