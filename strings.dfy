/**
 * The JavaScript string operations the route handlers are built from, on `string`
 * (a sequence of characters): the `\s` class, `trim`, `split` on runs of a character
 * class (`split(/\s+/)`, `split(/[.!?]+/)`), `includes`, `indexOf`, `startsWith`,
 * `toLowerCase`, `join`, the decimal rendering of a whole number, and the truthiness of
 * an optional string field.
 */
module Strings {
  import opened Wrappers
  import opened Lists

  /** A JSON string field is truthy: present and not the empty string. */
  predicate Truthy(field: Option<string>) {
    field.Some? && field.value != ""
  }

  /** JavaScript's `\s`, restricted to the ASCII whitespace characters. */
  predicate IsSpace(c: char) {
    c == ' ' || c == '\t' || c == '\n' || c == '\r' || c == '\U{000B}' || c == '\U{000C}'
  }

  /** The sentence terminators `[.!?]`. */
  predicate IsTerminator(c: char) {
    c == '.' || c == '!' || c == '?'
  }

  /** No character of `s` is in the class `p`. */
  predicate NoneIn(s: string, p: char -> bool) {
    forall k :: 0 <= k < |s| ==> !p(s[k])
  }

  /** `s.startsWith(prefix)`. */
  predicate StartsWith(s: string, prefix: string) {
    |prefix| <= |s| && s[..|prefix|] == prefix
  }

  /** `s.endsWith(suffix)`. */
  predicate EndsWith(s: string, suffix: string) {
    |suffix| <= |s| && s[|s| - |suffix|..] == suffix
  }

  /** `s.includes(sub)`: `sub` occurs in `s` at some position. */
  predicate Includes(s: string, sub: string)
    decreases |s|
  {
    StartsWith(s, sub) || (|s| > 0 && Includes(s[1..], sub))
  }

  /** An occurrence of `sub` at position `i` makes `s.includes(sub)` true. */
  lemma {:induction false} IncludesAt(s: string, sub: string, i: nat)
    requires i + |sub| <= |s| && s[i..i + |sub|] == sub
    ensures Includes(s, sub)
    decreases i
  {
    if i > 0 {
      assert s[1..][i - 1..i - 1 + |sub|] == sub;
      IncludesAt(s[1..], sub, i - 1);
    }
  }

  /** `s.includes(sub)` is true only because of an occurrence of `sub` at some position. */
  lemma {:induction false} IncludesWitness(s: string, sub: string) returns (i: nat)
    requires Includes(s, sub)
    ensures i + |sub| <= |s| && s[i..i + |sub|] == sub
    decreases |s|
  {
    if StartsWith(s, sub) {
      i := 0;
    } else {
      var j := IncludesWitness(s[1..], sub);
      i := j + 1;
      assert s[i..i + |sub|] == s[1..][j..j + |sub|];
    }
  }

  /** `s.indexOf(sub)`: the first position of `sub` in `s`, or -1. */
  function IndexOf(s: string, sub: string): (r: int)
    ensures -1 <= r <= |s|
    ensures r == -1 <==> !Includes(s, sub)
    ensures r >= 0 ==> StartsWith(s[r..], sub)
    ensures forall k :: 0 <= k < r ==> !StartsWith(s[k..], sub)
    decreases |s|
  {
    if StartsWith(s, sub) then 0
    else if |s| == 0 then -1
    else
      var k := IndexOf(s[1..], sub);
      assert forall m :: 1 <= m <= |s| ==> s[m..] == s[1..][m - 1..];
      if k == -1 then -1 else k + 1
  }

  /** `toLowerCase` on one character; only the ASCII letters change. */
  function LowerChar(c: char): char {
    if 'A' <= c <= 'Z' then (c as int + 32) as char else c
  }

  /** `s.toLowerCase()`, with ASCII case mapping. */
  function ToLower(s: string): (r: string)
    ensures |r| == |s|
  {
    seq(|s|, i requires 0 <= i < |s| => LowerChar(s[i]))
  }

  /** `trimStart`: drops the leading whitespace and nothing else. */
  function TrimStart(s: string): (r: string)
    ensures |r| <= |s| && r == s[|s| - |r|..]
    ensures r == [] || !IsSpace(r[0])
    ensures forall k :: 0 <= k < |s| - |r| ==> IsSpace(s[k])
    decreases |s|
  {
    if |s| > 0 && IsSpace(s[0]) then TrimStart(s[1..]) else s
  }

  /** `trimEnd`: drops the trailing whitespace and nothing else. */
  function TrimEnd(s: string): (r: string)
    ensures |r| <= |s| && r == s[..|r|]
    ensures r == [] || !IsSpace(r[|r| - 1])
    ensures forall k :: |r| <= k < |s| ==> IsSpace(s[k])
    decreases |s|
  {
    if |s| > 0 && IsSpace(s[|s| - 1]) then TrimEnd(s[..|s| - 1]) else s
  }

  /** A string with no whitespace at either end. */
  predicate IsTrimmed(s: string) {
    s == [] || (!IsSpace(s[0]) && !IsSpace(s[|s| - 1]))
  }

  /** `s.trim()`: the longest infix of `s` with no whitespace at either end. */
  function Trim(s: string): (r: string)
    ensures IsTrimmed(r) && |r| <= |s|
  {
    TrimEnd(TrimStart(s))
  }

  /**
   * What `trim` keeps is one infix of the string, and everything around that infix is
   * whitespace.
   */
  lemma TrimInfix(s: string) returns (i: nat)
    ensures i + |Trim(s)| <= |s| && Trim(s) == s[i..i + |Trim(s)|]
    ensures forall k :: 0 <= k < i ==> IsSpace(s[k])
    ensures forall k :: i + |Trim(s)| <= k < |s| ==> IsSpace(s[k])
  {
    var t := TrimStart(s);
    i := |s| - |t|;
    assert t == s[i..];
    TrimEndOfSuffix(s, i);
    assert Trim(s) == TrimEnd(s[i..]);
  }

  /** Trimming the end of a suffix leaves an infix followed by whitespace only. */
  lemma TrimEndOfSuffix(s: string, i: nat)
    requires i <= |s|
    ensures var r := TrimEnd(s[i..]);
            i + |r| <= |s| && r == s[i..i + |r|] &&
            forall k :: i + |r| <= k < |s| ==> IsSpace(s[k])
  {
    var t := s[i..];
    var r := TrimEnd(t);
    SliceOfSuffix(s, i, |r|);
    forall k | i + |r| <= k < |s| ensures IsSpace(s[k]) {
      assert s[k] == t[k - i];
    }
  }

  /** A prefix of a suffix is an infix. */
  lemma SliceOfSuffix<T>(s: seq<T>, i: nat, n: nat)
    requires i + n <= |s|
    ensures s[i..][..n] == s[i..i + n]
  {
  }

  /** Trimming a string with no character of a class leaves none of that class. */
  lemma TrimNoneIn(s: string, p: char -> bool)
    requires NoneIn(s, p)
    ensures NoneIn(Trim(s), p)
  {
    var i := TrimInfix(s);
    assert forall k :: 0 <= k < |Trim(s)| ==> Trim(s)[k] == s[i + k];
  }

  /** Trimming a string with no whitespace at either end changes nothing. */
  lemma TrimTrimmed(s: string)
    requires IsTrimmed(s)
    ensures Trim(s) == s
  {
  }

  /** One leading space before a trimmed string is all that `trim` removes. */
  lemma TrimAfterSpace(s: string)
    requires IsTrimmed(s)
    ensures Trim([' '] + s) == s
  {
    assert ([' '] + s)[1..] == s;
  }

  /** The first position at or after `i` whose character is in the class `p`, or `|s|`. */
  function FindFrom(s: string, i: nat, p: char -> bool): (k: nat)
    requires i <= |s|
    ensures i <= k <= |s| && (k < |s| ==> p(s[k]))
    ensures forall m :: i <= m < k ==> !p(s[m])
    decreases |s| - i
  {
    if i == |s| || p(s[i]) then i else FindFrom(s, i + 1, p)
  }

  /** The complement of a character class. */
  function Negate(p: char -> bool): char -> bool {
    c => !p(c)
  }

  /** `FindFrom` is pinned down by its two postconditions. */
  lemma {:induction false} FindFromIs(s: string, i: nat, p: char -> bool, k: nat)
    requires i <= k <= |s| && (k < |s| ==> p(s[k]))
    requires forall m :: i <= m < k ==> !p(s[m])
    ensures FindFrom(s, i, p) == k
    decreases k - i
  {
    if i < k {
      FindFromIs(s, i + 1, p, k);
    }
  }

  /**
   * `s.split(/[class]+/)`: the pieces between maximal runs of separator characters.
   * A separator at the start gives a leading `""`, one at the end a trailing `""`,
   * and `""` itself splits to `[""]`.
   */
  function Split(s: string, sep: char -> bool): (parts: seq<string>)
    ensures |parts| >= 1
    ensures forall k :: 0 <= k < |parts| ==> NoneIn(parts[k], sep)
    decreases |s|
  {
    var i := FindFrom(s, 0, sep);
    if i == |s| then [s]
    else
      var j := FindFrom(s, i, Negate(sep));
      [s[..i]] + Split(s[j..], sep)
  }

  /** Searching after a prefix finds what searching the rest finds, shifted by the prefix. */
  lemma FindFromShift(a: string, s: string, k: nat, p: char -> bool)
    requires k <= |s|
    ensures FindFrom(a + s, |a| + k, p) == |a| + FindFrom(s, k, p)
  {
    var f := FindFrom(s, k, p);
    var x := a + s;
    forall m | |a| + k <= m < |a| + f ensures !p(x[m]) {
      assert x[m] == s[m - |a|];
    }
    if f < |s| {
      assert x[|a| + f] == s[f];
    }
    FindFromIs(x, |a| + k, p, |a| + f);
  }

  /** A prefix with no match is skipped by the search. */
  lemma FindFromSkip(a: string, s: string, p: char -> bool)
    requires NoneIn(a, p)
    ensures FindFrom(a + s, 0, p) == FindFrom(a + s, |a|, p)
  {
    var x := a + s;
    var f := FindFrom(x, |a|, p);
    forall m | 0 <= m < f ensures !p(x[m]) {
      if m < |a| {
        assert x[m] == a[m];
      }
    }
    FindFromIs(x, 0, p, f);
  }

  /** One step of `Split`: the piece before the first separator run, then the rest split. */
  lemma SplitAt(x: string, sep: char -> bool, i: nat, j: nat, head: string, tail: string)
    requires i < |x| && FindFrom(x, 0, sep) == i && i <= j <= |x| && FindFrom(x, i, Negate(sep)) == j
    requires x[..i] == head && x[j..] == tail
    ensures Split(x, sep) == [head] + Split(tail, sep)
  {
  }

  /** Splitting after a prefix without separators glues the prefix onto the first piece. */
  lemma SplitPrefix(a: string, s: string, sep: char -> bool)
    requires NoneIn(a, sep)
    ensures Split(a + s, sep) == [a + Split(s, sep)[0]] + Split(s, sep)[1..]
  {
    var i := FindFrom(s, 0, sep);
    FindFromSkip(a, s, sep);
    FindFromShift(a, s, 0, sep);
    if i == |s| {
      assert Split(a + s, sep) == [a + s];
    } else {
      var j := FindFrom(s, i, Negate(sep));
      SplitPrefixPiece(a, s, sep, i, j);
      SplitAt(s, sep, i, j, s[..i], s[j..]);
      ConsParts(Split(s, sep), s[..i], Split(s[j..], sep));
    }
  }

  /** The first piece after a prefix without separators. */
  lemma SplitPrefixPiece(a: string, s: string, sep: char -> bool, i: nat, j: nat)
    requires NoneIn(a, sep) && i < |s| && FindFrom(a + s, 0, sep) == |a| + i
    requires i <= j <= |s| && FindFrom(s, i, Negate(sep)) == j
    ensures Split(a + s, sep) == [a + s[..i]] + Split(s[j..], sep)
  {
    var x := a + s;
    FindFromShift(a, s, i, Negate(sep));
    assert x[..|a| + i] == a + s[..i];
    assert x[|a| + j..] == s[j..];
    SplitAt(x, sep, |a| + i, |a| + j, a + s[..i], s[j..]);
  }

  /** A string without separators splits to itself alone. */
  lemma SplitNone(s: string, sep: char -> bool)
    requires NoneIn(s, sep)
    ensures Split(s, sep) == [s]
  {
  }

  /** A piece without separators, then one separator, then a non-separator. */
  lemma SplitCons(a: string, c: char, b: string, sep: char -> bool)
    requires NoneIn(a, sep) && sep(c) && (b == [] || !sep(b[0]))
    ensures Split(a + [c] + b, sep) == [a] + Split(b, sep)
  {
    var s := a + [c] + b;
    assert s[..|a|] == a && s[|a| + 1..] == b && s[|a|] == c;
    assert forall m :: 0 <= m < |a| ==> s[m] == a[m];
    FindFromIs(s, 0, sep, |a|);
    FindFromIs(s, |a|, Negate(sep), |a| + 1);
  }

  /** A string that ends in a separator splits to a list whose last piece is empty. */
  lemma {:induction false} SplitEndsEmpty(s: string, sep: char -> bool)
    requires |s| > 0 && sep(s[|s| - 1])
    ensures Split(s, sep)[|Split(s, sep)| - 1] == ""
    decreases |s|
  {
    var i := FindFrom(s, 0, sep);
    var j := FindFrom(s, i, Negate(sep));
    if j < |s| {
      SplitEndsEmpty(s[j..], sep);
    }
  }

  /**
   * `s.replace(/\s+/g, ' ')`: every maximal run of whitespace becomes one space, so
   * the only whitespace left is single spaces.
   */
  function CollapseSpaces(s: string): (r: string)
    ensures |r| <= |s|
    ensures |r| > 0 <==> |s| > 0
    ensures |s| > 0 ==> (IsSpace(s[0]) <==> IsSpace(r[0]))
    ensures forall k :: 0 <= k < |r| && IsSpace(r[k]) ==> r[k] == ' '
    ensures forall k :: 0 <= k < |r| - 1 && IsSpace(r[k]) ==> !IsSpace(r[k + 1])
    ensures forall c :: c in r && !IsSpace(c) ==> c in s
    decreases |s|
  {
    if s == [] then []
    else if IsSpace(s[0]) then
      var rest := s[FindFrom(s, 0, c => !IsSpace(c))..];
      assert forall c :: c in rest ==> c in s;
      [' '] + CollapseSpaces(rest)
    else
      [s[0]] + CollapseSpaces(s[1..])
  }

  /** `parts.join(sep)`. */
  function Join(parts: seq<string>, sep: string): string
    decreases |parts|
  {
    if |parts| == 0 then ""
    else if |parts| == 1 then parts[0]
    else parts[0] + sep + Join(parts[1..], sep)
  }

  predicate IsDigit(c: char) {
    '0' <= c <= '9'
  }

  /** `/^[0-9]+$/`: one or more decimal digits and nothing else. */
  predicate AllDigits(s: string) {
    |s| > 0 && forall k :: 0 <= k < |s| ==> IsDigit(s[k])
  }

  function DigitChar(d: nat): (c: char)
    requires d < 10
    ensures IsDigit(c)
  {
    ('0' as int + d) as char
  }

  /** The number a string of decimal digits denotes. */
  function ValueOf(s: string): nat
    requires forall k :: 0 <= k < |s| ==> IsDigit(s[k])
    decreases |s|
  {
    if s == [] then 0
    else
      assert IsDigit(s[|s| - 1]);
      ValueOf(s[..|s| - 1]) * 10 + (s[|s| - 1] as int - '0' as int)
  }

  /** `String(n)` for a whole number: its decimal digits, without leading zeros. */
  function Decimal(n: nat): (r: string)
    ensures AllDigits(r) && ValueOf(r) == n
    ensures |r| == 1 <==> n < 10
    ensures |r| > 1 ==> r[0] != '0'
    decreases n
  {
    if n < 10 then [DigitChar(n)]
    else
      var r := Decimal(n / 10) + [DigitChar(n % 10)];
      assert r[..|r| - 1] == Decimal(n / 10);
      r
  }
}
