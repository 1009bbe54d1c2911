/** String helpers with the semantics of the JavaScript built-ins the screens use:
    `trim`, `includes`, `toLowerCase`/`toUpperCase`, `split`, `join`, `substring`,
    the relational string operators, and decimal rendering of integers. */
module Text {

  /** The WhiteSpace and LineTerminator code points of ECMAScript: the set removed by
      `String.prototype.trim` and the set matched by the regular-expression class `\s`. */
  predicate IsSpace(c: char) {
    c == '\t' || c == '\n' || c == '\U{B}' || c == '\U{C}' || c == '\r' || c == ' '
    || c == '\U{A0}' || c == '\U{1680}' || ('\U{2000}' <= c <= '\U{200A}')
    || c == '\U{2028}' || c == '\U{2029}' || c == '\U{202F}' || c == '\U{205F}'
    || c == '\U{3000}' || c == '\U{FEFF}'
  }

  predicate AllSpace(s: string) {
    forall i :: 0 <= i < |s| ==> IsSpace(s[i])
  }

  /** The index of the first character at or after `i` that is not white space (`|s|` when
      there is none). */
  function SkipSpace(s: string, i: nat): (n: nat)
    requires i <= |s|
    ensures i <= n <= |s|
    ensures forall k :: i <= k < n ==> IsSpace(s[k])
    ensures n < |s| ==> !IsSpace(s[n])
    decreases |s| - i
  {
    if i < |s| && IsSpace(s[i]) then SkipSpace(s, i + 1) else i
  }

  /** Walking back from `j` but not below `lo`: the index just past the last character that is
      not white space (`lo` when there is none). */
  function SkipSpaceBack(s: string, lo: nat, j: nat): (n: nat)
    requires lo <= j <= |s|
    ensures lo <= n <= j
    ensures forall k :: n <= k < j ==> IsSpace(s[k])
    ensures n > lo ==> !IsSpace(s[n - 1])
    decreases j
  {
    if j > lo && IsSpace(s[j - 1]) then SkipSpaceBack(s, lo, j - 1) else j
  }

  /** `String.prototype.trim`: leading white space removed, then trailing white space. */
  function Trim(s: string): string {
    var a := SkipSpace(s, 0);
    s[a..SkipSpaceBack(s, a, |s|)]
  }

  /** A string is blank after `trim` exactly when every character of it is white space. */
  lemma TrimBlankIff(s: string)
    ensures Trim(s) == [] <==> AllSpace(s)
  {
    var a := SkipSpace(s, 0);
    var b := SkipSpaceBack(s, a, |s|);
    assert |Trim(s)| == b - a;
  }

  /** The trimmed string is a contiguous piece of the input that neither starts nor ends with
      white space, and everything cut away is white space. */
  lemma TrimShape(s: string)
    ensures exists a, b :: 0 <= a <= b <= |s| && Trim(s) == s[a..b] && AllSpace(s[..a]) && AllSpace(s[b..])
    ensures Trim(s) == [] || (!IsSpace(Trim(s)[0]) && !IsSpace(Trim(s)[|Trim(s)| - 1]))
  {
    var a := SkipSpace(s, 0);
    var b := SkipSpaceBack(s, a, |s|);
    assert AllSpace(s[..a]) && AllSpace(s[b..]);
  }

  /** `haystack.includes(needle)`: the needle occurs as a contiguous piece (the empty needle
      occurs everywhere). */
  predicate Contains(haystack: string, needle: string)
    decreases |haystack|
  {
    needle <= haystack || (haystack != [] && Contains(haystack[1..], needle))
  }

  /** `needle` stands in `haystack` at position `i`. */
  predicate OccursAt(haystack: string, needle: string, i: int) {
    0 <= i && i + |needle| <= |haystack| && haystack[i..i + |needle|] == needle
  }

  lemma {:induction false} ContainsIff(haystack: string, needle: string)
    ensures Contains(haystack, needle) <==> exists i :: OccursAt(haystack, needle, i)
    decreases |haystack|
  {
    if needle <= haystack {
      assert haystack[0..0 + |needle|] == needle;
      assert OccursAt(haystack, needle, 0);
    } else if haystack != [] {
      var h := haystack[1..];
      ContainsIff(h, needle);
      forall i | OccursAt(haystack, needle, i) ensures OccursAt(h, needle, i - 1) {
        assert i != 0 by { assert haystack[0..|needle|] == haystack[..|needle|]; }
        assert h[i - 1..i - 1 + |needle|] == haystack[i..i + |needle|];
      }
      forall i | OccursAt(h, needle, i) ensures OccursAt(haystack, needle, i + 1) {
        assert haystack[i + 1..i + 1 + |needle|] == h[i..i + |needle|];
      }
    }
  }

  lemma ContainsEmpty(haystack: string)
    ensures Contains(haystack, "")
  {
  }

  /** `toLowerCase` on one character: Basic Latin and Latin-1 capitals. */
  function LowerChar(c: char): (r: char)
    ensures ('A' <= c <= 'Z') ==> r == (c as int + 32) as char
    ensures !('A' <= c <= 'Z') && !('\U{C0}' <= c <= '\U{DE}') ==> r == c
  {
    if 'A' <= c <= 'Z' || ('\U{C0}' <= c <= '\U{DE}' && c != '\U{D7}') then (c as int + 32) as char else c
  }

  /** `toUpperCase` on one character: Basic Latin and Latin-1 small letters. */
  function UpperChar(c: char): (r: char)
    ensures ('a' <= c <= 'z') ==> r == (c as int - 32) as char
    ensures !('a' <= c <= 'z') && !('\U{E0}' <= c <= '\U{FE}') ==> r == c
  {
    if 'a' <= c <= 'z' || ('\U{E0}' <= c <= '\U{FE}' && c != '\U{F7}') then (c as int - 32) as char else c
  }

  function Lower(s: string): (r: string)
    ensures |r| == |s| && forall i :: 0 <= i < |s| ==> r[i] == LowerChar(s[i])
  {
    seq(|s|, i requires 0 <= i < |s| => LowerChar(s[i]))
  }

  function Upper(s: string): (r: string)
    ensures |r| == |s| && forall i :: 0 <= i < |s| ==> r[i] == UpperChar(s[i])
  {
    seq(|s|, i requires 0 <= i < |s| => UpperChar(s[i]))
  }

  /** `a.toLowerCase().includes(b.toLowerCase())`. */
  predicate ContainsIgnoringCase(haystack: string, needle: string) {
    Contains(Lower(haystack), Lower(needle))
  }

  /** JavaScript's relational operators on strings: lexicographic order of the characters,
      a proper prefix coming first. */
  predicate StrLe(a: string, b: string)
    decreases |a|
  {
    a == [] || (b != [] && (a[0] < b[0] || (a[0] == b[0] && StrLe(a[1..], b[1..]))))
  }

  predicate StrLt(a: string, b: string) {
    !StrLe(b, a)
  }

  lemma {:induction false} StrLeRefl(a: string)
    ensures StrLe(a, a)
    decreases |a|
  {
    if a != [] { StrLeRefl(a[1..]); }
  }

  lemma {:induction false} StrLeTotal(a: string, b: string)
    ensures StrLe(a, b) || StrLe(b, a)
    decreases |a|
  {
    if a != [] && b != [] && a[0] == b[0] { StrLeTotal(a[1..], b[1..]); }
  }

  lemma {:induction false} StrLeTrans(a: string, b: string, c: string)
    requires StrLe(a, b) && StrLe(b, c)
    ensures StrLe(a, c)
    decreases |a|
  {
    if a != [] && b != [] && c != [] && a[0] == b[0] == c[0] {
      StrLeTrans(a[1..], b[1..], c[1..]);
    }
  }

  lemma {:induction false} StrLeAntisym(a: string, b: string)
    requires StrLe(a, b) && StrLe(b, a)
    ensures a == b
    decreases |a|
  {
    if a != [] && b != [] { StrLeAntisym(a[1..], b[1..]); }
  }

  /** Comparing two strings whose first parts have the same length compares the first parts
      and, on a tie, the rest: the reason a fixed-width key sorts field by field. */
  lemma {:induction false} StrLeConcat(a1: string, a2: string, b1: string, b2: string)
    requires |a1| == |b1|
    ensures StrLe(a1 + a2, b1 + b2) <==> (StrLt(a1, b1) || (a1 == b1 && StrLe(a2, b2)))
    decreases |a1|
  {
    if a1 == [] {
      assert a1 + a2 == a2 && b1 + b2 == b2;
    } else {
      assert (a1 + a2)[1..] == a1[1..] + a2;
      assert (b1 + b2)[1..] == b1[1..] + b2;
      StrLeConcat(a1[1..], a2, b1[1..], b2);
      if a1[0] == b1[0] && a1[1..] == b1[1..] {
        assert a1 == b1;
      }
      if a1 == b1 {
        StrLeRefl(a1);
      }
    }
  }

  // Decimal digits

  predicate IsDigit(c: char) {
    '0' <= c <= '9'
  }

  predicate AllDigits(s: string) {
    forall i :: 0 <= i < |s| ==> IsDigit(s[i])
  }

  function DigitChar(n: nat): (c: char)
    requires n < 10
    ensures IsDigit(c)
  {
    ('0' as int + n) as char
  }

  function DigitValue(c: char): nat
    requires IsDigit(c)
  {
    c as int - '0' as int
  }

  /** Value of a string of decimal digits, read from the left. */
  function ParseNat(s: string): nat
    requires AllDigits(s)
  {
    if s == [] then 0 else ParseNat(s[..|s| - 1]) * 10 + DigitValue(s[|s| - 1])
  }

  /** Decimal rendering of a natural number, as template literals render it. */
  function NatToString(n: nat): (s: string)
    ensures s != [] && AllDigits(s)
    ensures ParseNat(s) == n
  {
    if n < 10 then [DigitChar(n)]
    else
      var s := NatToString(n / 10) + [DigitChar(n % 10)];
      assert s[..|s| - 1] == NatToString(n / 10);
      assert DigitValue(s[|s| - 1]) == n % 10;
      assert n == (n / 10) * 10 + n % 10;
      s
  }

  /** Decimal rendering of an integer, with a leading '-' for negatives. */
  function IntToString(i: int): (s: string)
    ensures s != [] && (s[0] == '-' <==> i < 0)
  {
    if i < 0 then "-" + NatToString(-i) else NatToString(i)
  }

  lemma NatToStringInjective(m: nat, n: nat)
    ensures NatToString(m) == NatToString(n) <==> m == n
  {
  }

  lemma IntToStringInjective(i: int, j: int)
    ensures IntToString(i) == IntToString(j) <==> i == j
  {
    if IntToString(i) == IntToString(j) && i < 0 && j < 0 {
      assert NatToString(-i) == IntToString(i)[1..];
      assert NatToString(-j) == IntToString(j)[1..];
      NatToStringInjective(-i, -j);
    } else if IntToString(i) == IntToString(j) && i >= 0 && j >= 0 {
      NatToStringInjective(i, j);
    }
  }

  /** Digit strings of equal length compare as strings exactly as their values compare. */
  lemma {:induction false} DigitsOrder(a: string, b: string)
    requires AllDigits(a) && AllDigits(b) && |a| == |b|
    ensures StrLe(a, b) <==> ParseNat(a) <= ParseNat(b)
    ensures a == b <==> ParseNat(a) == ParseNat(b)
    decreases |a|
  {
    if a != [] {
      var n := |a|;
      var a', b' := a[..n - 1], b[..n - 1];
      DigitsOrder(a', b');
      DigitsOrder(b', a');
      assert a == a' + [a[n - 1]] && b == b' + [b[n - 1]];
      StrLeConcat(a', [a[n - 1]], b', [b[n - 1]]);
      StrLeRefl(a');
      Mul10Order(ParseNat(a'), ParseNat(b'), DigitValue(a[n - 1]), DigitValue(b[n - 1]));
    }
  }

  lemma Mul10Order(p: nat, q: nat, x: nat, y: nat)
    requires x < 10 && y < 10
    ensures p * 10 + x <= q * 10 + y <==> p < q || (p == q && x <= y)
    ensures p * 10 + x == q * 10 + y <==> p == q && x == y
  {
    if p < q {
      assert p * 10 + x < (p + 1) * 10 <= q * 10;
    } else if q < p {
      assert q * 10 + y < (q + 1) * 10 <= p * 10;
    }
  }

  lemma StrLeAntisymOrder(a: string, b: string)
    requires StrLe(a, b) && a != b
    ensures StrLt(a, b)
  {
    if StrLe(b, a) { StrLeAntisym(a, b); }
  }

  // `split` and `join`

  function IndexOf(s: string, c: char): (i: int)
    ensures -1 <= i < |s|
    ensures i == -1 <==> c !in s
    ensures i >= 0 ==> s[i] == c && c !in s[..i]
    ensures forall k :: 0 <= k < i ==> s[k] != c
  {
    if s == [] then -1
    else if s[0] == c then 0
    else
      var j := IndexOf(s[1..], c);
      if j == -1 then -1 else j + 1
  }

  /** `s.split(c)` for a one-character separator: the pieces between separators, so that
      adjacent separators give an empty piece and the empty string gives one empty piece. */
  function Split(s: string, c: char): (parts: seq<string>)
    ensures |parts| >= 1
    ensures forall k :: 0 <= k < |parts| ==> c !in parts[k]
    decreases |s|
  {
    var i := IndexOf(s, c);
    if i == -1 then [s] else [s[..i]] + Split(s[i + 1..], c)
  }

  lemma SplitOne(a: string, c: char, rest: string)
    requires c !in a
    ensures Split(a + [c] + rest, c) == [a] + Split(rest, c)
  {
    var s := a + [c] + rest;
    var i := IndexOf(s, c);
    assert s[|a|] == c;
    assert forall k :: 0 <= k < |a| ==> s[k] == a[k];
    assert i == |a|;
    assert s[..i] == a && s[i + 1..] == rest;
  }

  lemma SplitNone(a: string, c: char)
    requires c !in a
    ensures Split(a, c) == [a]
  {
  }

  /** `parts.join(sep)`. */
  function Join(parts: seq<string>, sep: string): string {
    if parts == [] then ""
    else if |parts| == 1 then parts[0]
    else parts[0] + sep + Join(parts[1..], sep)
  }

  function Reverse<T>(s: seq<T>): (r: seq<T>)
    ensures |r| == |s| && forall k :: 0 <= k < |s| ==> r[k] == s[|s| - 1 - k]
  {
    if s == [] then [] else Reverse(s[1..]) + [s[0]]
  }

  /** `s.substring(0, n)` for n >= 0. */
  function Prefix(s: string, n: nat): (r: string)
    ensures r == s[..if n <= |s| then n else |s|]
  {
    if n <= |s| then s[..n] else s
  }
}
