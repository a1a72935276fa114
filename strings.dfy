/**
 * The JavaScript string operations the server and the front end rely on:
 * ASCII `toLowerCase`/`toUpperCase`, `includes`, `trim`, the prefix tests of
 * anchored regular expressions such as `/^\//`, `join`, splitting on `/\s+/`, and
 * decimal rendering of counters.
 */
module Strings {

  /** The characters JavaScript's `\s` matches and `String.prototype.trim` removes
      (WhiteSpace and LineTerminator of ECMA-262). */
  predicate IsSpace(c: char) {
    || c == '\t' || c == '\n' || c == '\U{B}' || c == '\U{C}' || c == '\r' || c == ' '
    || c == '\U{A0}' || c == '\U{1680}' || ('\U{2000}' <= c <= '\U{200A}')
    || c == '\U{2028}' || c == '\U{2029}' || c == '\U{202F}' || c == '\U{205F}'
    || c == '\U{3000}' || c == '\U{FEFF}'
  }

  /** `\d`: an ASCII decimal digit. */
  predicate IsDigit(c: char) {
    '0' <= c <= '9'
  }

  function ToLowerChar(c: char): char {
    if 'A' <= c <= 'Z' then (c as int + 32) as char else c
  }

  function ToUpperChar(c: char): char {
    if 'a' <= c <= 'z' then (c as int - 32) as char else c
  }

  /** `toLowerCase`, restricted to the ASCII letters. */
  function Lower(s: string): string {
    seq(|s|, k requires 0 <= k < |s| => ToLowerChar(s[k]))
  }

  /** `toUpperCase`, restricted to the ASCII letters. */
  function Upper(s: string): string {
    seq(|s|, k requires 0 <= k < |s| => ToUpperChar(s[k]))
  }

  /** Upper-casing a string twice changes nothing more than once. */
  lemma UpperIdempotent(s: string)
    ensures Upper(Upper(s)) == Upper(s)
  {
    assert forall k :: 0 <= k < |s| ==> Upper(Upper(s))[k] == Upper(s)[k];
  }

  /** Lower-casing a string twice changes nothing more than once. */
  lemma LowerIdempotent(s: string)
    ensures Lower(Lower(s)) == Lower(s)
  {
    assert forall k :: 0 <= k < |s| ==> Lower(Lower(s))[k] == Lower(s)[k];
  }

  /** Two strings that agree ignoring ASCII case upper-case to the same string,
      whichever case they were lowered or raised to first. */
  lemma UpperOfLower(s: string)
    ensures Upper(Lower(s)) == Upper(s)
  {
    assert forall k :: 0 <= k < |s| ==> Upper(Lower(s))[k] == Upper(s)[k];
  }

  lemma LowerOfUpper(s: string)
    ensures Lower(Upper(s)) == Lower(s)
  {
    assert forall k :: 0 <= k < |s| ==> Lower(Upper(s))[k] == Lower(s)[k];
  }

  /** `s.includes(t)`: `t` occurs in `s` as a contiguous block (the empty string occurs everywhere). */
  predicate Contains(s: string, t: string) {
    exists i | 0 <= i <= |s| - |t| :: OccursAt(s, t, i)
  }

  /** `t` occurs in `s` starting at position `i`. */
  predicate OccursAt(s: string, t: string, i: int) {
    0 <= i <= |s| - |t| && s[i..i + |t|] == t
  }

  /** `s.startsWith(p)`. */
  predicate StartsWith(s: string, p: string) {
    |p| <= |s| && s[..|p|] == p
  }

  /** A string that `trim` leaves alone: empty, or not starting or ending in white space. */
  predicate IsTrimmed(s: string) {
    s == [] || (!IsSpace(s[0]) && !IsSpace(s[|s| - 1]))
  }

  function TrimStart(s: string): (r: string)
    ensures |r| <= |s| && r == s[|s| - |r|..]
    ensures r == [] || !IsSpace(r[0])
  {
    if s != [] && IsSpace(s[0]) then TrimStart(s[1..]) else s
  }

  function TrimEnd(s: string): (r: string)
    ensures |r| <= |s| && r == s[..|r|]
    ensures r == [] || !IsSpace(r[|r| - 1])
  {
    if s != [] && IsSpace(s[|s| - 1]) then TrimEnd(s[..|s| - 1]) else s
  }

  /** Every character of `s` is white space (in particular when `s` is empty). */
  predicate AllSpace(s: string) {
    forall k :: 0 <= k < |s| ==> IsSpace(s[k])
  }

  /** `String.prototype.trim`: the longest middle block of `s` without white space at either end. */
  function Trim(s: string): (r: string)
    ensures IsTrimmed(r)
    ensures AllSpace(s) <==> r == []
    ensures IsBlockAmidSpace(s, r)
  {
    AllSpaceIffTrimsEmpty(s);
    TrimEndKeepsStart(TrimStart(s));
    TrimDropsOnlySpace(s);
    TrimEnd(TrimStart(s))
  }

  /** `r` is a block of `s` with nothing but white space before and after it. */
  predicate IsBlockAmidSpace(s: string, r: string) {
    exists i, j :: 0 <= i <= j <= |s| && r == s[i..j] && AllSpace(s[..i]) && AllSpace(s[j..])
  }

  /** `TrimEnd(TrimStart(s))` is a block of `s` with only white space before and after it. */
  lemma TrimDropsOnlySpace(s: string)
    ensures IsBlockAmidSpace(s, TrimEnd(TrimStart(s)))
  {
    var t := TrimStart(s);
    TrimStartAllSpacePrefix(s);
    TrimEndAllSpaceSuffix(t);
    SpaceAroundBlock(s, t, TrimEnd(t));
  }

  /** A prefix `r` of a suffix `t` of `s`, where only white space precedes `t` in `s` and
      follows `r` in `t`, is a block of `s` with only white space around it. */
  lemma SpaceAroundBlock(s: string, t: string, r: string)
    requires |t| <= |s| && t == s[|s| - |t|..]
    requires |r| <= |t| && r == t[..|r|]
    requires forall k :: 0 <= k < |s| - |t| ==> IsSpace(s[k])
    requires forall k :: |r| <= k < |t| ==> IsSpace(t[k])
    ensures IsBlockAmidSpace(s, r)
  {
    var i, j := |s| - |t|, |s| - |t| + |r|;
    assert r == s[i..j] by {
      assert s[i..][..|r|] == s[i..j];
    }
    forall k | 0 <= k < |s| - j ensures IsSpace(s[j..][k]) {
      assert s[j..][k] == t[|r| + k];
    }
    assert AllSpace(s[..i]) && AllSpace(s[j..]);
  }

  /** Whatever `TrimStart` drops is white space. */
  lemma {:induction false} TrimStartAllSpacePrefix(s: string)
    ensures forall k :: 0 <= k < |s| - |TrimStart(s)| ==> IsSpace(s[k])
  {
    if s != [] && IsSpace(s[0]) {
      TrimStartAllSpacePrefix(s[1..]);
      forall k | 0 <= k < |s| - |TrimStart(s)|
        ensures IsSpace(s[k])
      {
        if k > 0 {
          assert s[k] == s[1..][k - 1];
        }
      }
    }
  }

  lemma TrimEndKeepsStart(t: string)
    requires t == [] || !IsSpace(t[0])
    ensures TrimEnd(t) == [] || !IsSpace(TrimEnd(t)[0])
  {
    if t != [] && IsSpace(t[|t| - 1]) {
      if |t| > 1 {
        TrimEndKeepsStart(t[..|t| - 1]);
      }
    }
  }

  lemma {:induction false} AllSpaceIffTrimsEmpty(s: string)
    ensures AllSpace(s) <==> TrimEnd(TrimStart(s)) == []
  {
    if s == [] {
    } else if IsSpace(s[0]) {
      AllSpaceIffTrimsEmpty(s[1..]);
      AllSpaceCons(s);
    } else {
      NonSpaceStartSurvives(s);
    }
  }

  lemma AllSpaceCons(s: string)
    requires s != []
    ensures AllSpace(s) <==> IsSpace(s[0]) && AllSpace(s[1..])
  {
    assert forall k :: 1 <= k < |s| ==> s[1..][k - 1] == s[k];
  }

  lemma NonSpaceStartSurvives(s: string)
    requires s != [] && !IsSpace(s[0])
    ensures !AllSpace(s) && TrimEnd(TrimStart(s)) != []
  {
    assert TrimStart(s) == s;
    TrimEndAllSpaceSuffix(s);
  }

  /** Whatever `TrimEnd` drops is white space, so it keeps every non-space character. */
  lemma {:induction false} TrimEndAllSpaceSuffix(s: string)
    ensures forall k :: |TrimEnd(s)| <= k < |s| ==> IsSpace(s[k])
  {
    if s != [] && IsSpace(s[|s| - 1]) {
      TrimEndAllSpaceSuffix(s[..|s| - 1]);
    }
  }

  /** `trim` leaves an already trimmed string unchanged; in particular it is idempotent. */
  lemma TrimOfTrimmed(s: string)
    requires IsTrimmed(s)
    ensures Trim(s) == s
  {
  }

  /** Trimming `a + "\n"` for a trimmed, non-empty `a` drops just the newline. */
  lemma {:induction false} TrimDropsTrailingNewline(a: string)
    requires a != [] && IsTrimmed(a)
    ensures Trim(a + "\n") == a
  {
    DropTrailingNewline(a);
  }

  lemma DropTrailingNewline(a: string)
    requires a != [] && IsTrimmed(a)
    ensures TrimEnd(TrimStart(a + "\n")) == a
  {
    var s := a + "\n";
    var init := s[..|s| - 1];
    assert init == a;
    assert IsSpace(s[|s| - 1]);
    assert TrimEnd(s) == TrimEnd(init);
    assert TrimEnd(a) == a;
    assert TrimStart(s) == s;
  }

  /** `xs.join(sep)`. */
  function Join(xs: seq<string>, sep: string): string {
    if xs == [] then ""
    else if |xs| == 1 then xs[0]
    else Join(xs[..|xs| - 1], sep) + sep + xs[|xs| - 1]
  }

  /** With a non-empty separator, a join is empty exactly when there is nothing to join
      or a single empty string. */
  lemma {:induction false} JoinEmptyIff(xs: seq<string>, sep: string)
    requires sep != ""
    ensures Join(xs, sep) == "" <==> xs == [] || xs == [""]
  {
    if |xs| > 1 {
      assert |Join(xs, sep)| >= |sep|;
    }
  }

  function DigitChar(d: nat): (c: char)
    requires d < 10
    ensures IsDigit(c)
  {
    ('0' as int + d) as char
  }

  /** The number a string of decimal digits denotes (0 for the empty string). */
  function DecimalValue(s: string): nat
    requires forall k :: 0 <= k < |s| ==> IsDigit(s[k])
  {
    if s == [] then 0
    else
      var d := s[|s| - 1];
      assert IsDigit(d);
      10 * DecimalValue(s[..|s| - 1]) + (d as int - '0' as int)
  }

  /** The decimal rendering JavaScript gives a non-negative integer in a template literal. */
  function NatToString(n: nat): (r: string)
    ensures |r| > 0 && (r[0] != '0' || r == "0")
    ensures forall k :: 0 <= k < |r| ==> IsDigit(r[k])
    ensures DecimalValue(r) == n
  {
    if n < 10 then [DigitChar(n)]
    else
      var r := NatToString(n / 10) + [DigitChar(n % 10)];
      assert r[..|r| - 1] == NatToString(n / 10);
      r
  }

  /** The length of the leading run of non-white-space characters. */
  function WordLength(s: string): (n: nat)
    ensures n <= |s|
    ensures forall k :: 0 <= k < n ==> !IsSpace(s[k])
    ensures n == |s| || IsSpace(s[n])
  {
    if s == [] || IsSpace(s[0]) then 0 else 1 + WordLength(s[1..])
  }

  /** The non-empty pieces of `s.split(/\s+/)`: the maximal runs of non-white-space characters,
      in order. (The split itself also yields an empty first or last piece when `s` starts or
      ends with white space.) */
  function Words(s: string): (ws: seq<string>)
    ensures forall k :: 0 <= k < |ws| ==> ws[k] != []
    ensures forall k, c :: 0 <= k < |ws| && c in ws[k] ==> !IsSpace(c)
    decreases |s|
  {
    if s == [] then []
    else if IsSpace(s[0]) then Words(s[1..])
    else
      var n := WordLength(s);
      [s[..n]] + Words(s[n..])
  }

  /** Each word occurs in the string it was split from. */
  lemma {:induction false} WordsOccur(s: string)
    ensures forall k :: 0 <= k < |Words(s)| ==> Contains(s, Words(s)[k])
    decreases |s|
  {
    if s == [] {
    } else if IsSpace(s[0]) {
      WordsOccur(s[1..]);
      ContainsInSuffix(s, 1, Words(s[1..]));
    } else {
      var n := WordLength(s);
      WordsOccur(s[n..]);
      ContainsInSuffix(s, n, Words(s[n..]));
      assert OccursAt(s, s[..n], 0);
    }
  }

  /** A single word, without white space, splits into itself. */
  lemma WordsOfWord(w: string)
    requires w != [] && forall k :: 0 <= k < |w| ==> !IsSpace(w[k])
    ensures Words(w) == [w]
  {
    WordLengthUnique(w, |w|);
    assert w[..|w|] == w && w[|w|..] == [];
  }

  /** A string of white space alone has no words. */
  lemma {:induction false} WordsOfSpace(s: string)
    requires AllSpace(s)
    ensures Words(s) == []
    decreases |s|
  {
    if s != [] {
      WordsOfSpace(s[1..]);
    }
  }

  /** A white-space character separates: the words on either side of it are the words of the
      whole, in order, repeats included. */
  lemma {:induction false} WordsSplit(a: string, c: char, b: string)
    requires IsSpace(c)
    ensures Words(a + [c] + b) == Words(a) + Words(b)
    decreases |a|
  {
    var s := a + [c] + b;
    if a == [] {
      assert s[1..] == b;
    } else if IsSpace(a[0]) {
      assert s[1..] == a[1..] + [c] + b;
      WordsSplit(a[1..], c, b);
    } else {
      var n := WordLength(a);
      assert WordLength(s) == n by {
        assert s[n] == if n < |a| then a[n] else c;
        WordLengthUnique(s, n);
      }
      assert Words(s) == [a[..n]] + Words(a[n..] + [c] + b) by {
        WordsOfWordStart(s);
        assert s[..n] == a[..n] && s[n..] == a[n..] + [c] + b;
      }
      assert Words(a) == [a[..n]] + Words(a[n..]) by {
        WordsOfWordStart(a);
      }
      WordsSplit(a[n..], c, b);
      assert [a[..n]] + (Words(a[n..]) + Words(b)) == ([a[..n]] + Words(a[n..])) + Words(b);
    }
  }

  /** A string starting with a non-space character splits into its leading word and the
      words of the rest. */
  lemma WordsOfWordStart(s: string)
    requires s != [] && !IsSpace(s[0])
    ensures Words(s) == [s[..WordLength(s)]] + Words(s[WordLength(s)..])
  {
  }

  /** `WordLength` is the position of the first white space, or the length. */
  lemma WordLengthUnique(s: string, n: nat)
    requires n <= |s| && (forall k :: 0 <= k < n ==> !IsSpace(s[k])) && (n == |s| || IsSpace(s[n]))
    ensures WordLength(s) == n
  {
  }

  lemma ContainsInSuffix(s: string, n: nat, ws: seq<string>)
    requires n <= |s|
    requires forall k :: 0 <= k < |ws| ==> Contains(s[n..], ws[k])
    ensures forall k :: 0 <= k < |ws| ==> Contains(s, ws[k])
  {
    forall k | 0 <= k < |ws|
      ensures Contains(s, ws[k])
    {
      var w, t := ws[k], s[n..];
      var i :| OccursAt(t, w, i);
      assert OccursAt(t, w, i);
      assert s[n + i..n + i + |w|] == t[i..i + |w|];
      assert OccursAt(s, ws[k], n + i);
    }
  }
}
