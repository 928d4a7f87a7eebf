/** String helpers that stand in for the Python `str` methods and the two
    regular expressions the core uses. Case mapping and whitespace are ASCII
    only. */
module Strings {

  import opened Wrappers

  /** Python's `str.isspace()` restricted to ASCII (space, \t, \n, \v, \f, \r
      and the four separators 0x1C-0x1F). */
  predicate IsSpace(c: char) {
    c == ' ' || c == '\t' || c == '\n' || c == '\r' || ('\U{B}' <= c <= '\U{C}') || ('\U{1C}' <= c <= '\U{1F}')
  }

  /** `str.isdigit()` restricted to ASCII. */
  predicate IsDigit(c: char) {
    '0' <= c <= '9'
  }

  predicate IsUpper(c: char) { 'A' <= c <= 'Z' }
  predicate IsLower(c: char) { 'a' <= c <= 'z' }

  function LowerChar(c: char): char {
    if IsUpper(c) then (c as int + 32) as char else c
  }

  function UpperChar(c: char): char {
    if IsLower(c) then (c as int - 32) as char else c
  }

  /** `s.lower()` on ASCII letters; every other character is kept. */
  function Lower(s: string): (r: string)
    ensures |r| == |s|
    ensures forall i :: 0 <= i < |s| ==> r[i] == LowerChar(s[i])
    ensures forall i :: 0 <= i < |s| ==> !IsUpper(r[i])
  {
    seq(|s|, i requires 0 <= i < |s| => LowerChar(s[i]))
  }

  /** Python's `sub in s`: `sub` occurs as a contiguous slice of `s`. */
  predicate Contains(s: string, sub: string)
    decreases |s|
  {
    |sub| <= |s| && (s[..|sub|] == sub || Contains(s[1..], sub))
  }

  /** A text contains every piece it is built from. */
  lemma {:induction false} ContainsMiddle(a: string, s: string, b: string)
    ensures Contains(a + s + b, s)
    decreases |a|
  {
    if a == [] {
      assert a + s + b == s + b;
      assert (s + b)[..|s|] == s;
    } else {
      ContainsMiddle(a[1..], s, b);
      assert (a + s + b)[1..] == a[1..] + s + b;
    }
  }

  /** `sub` at position `i` of `s` is an occurrence. */
  lemma {:induction false} ContainsAt(s: string, sub: string, i: nat)
    requires i + |sub| <= |s| && s[i..i + |sub|] == sub
    ensures Contains(s, sub)
    decreases i
  {
    if i > 0 {
      assert s[1..][i - 1..i - 1 + |sub|] == sub;
      ContainsAt(s[1..], sub, i - 1);
    }
  }

  /** An occurrence has a position. */
  lemma {:induction false} ContainsIndex(s: string, sub: string) returns (i: nat)
    requires Contains(s, sub)
    ensures i + |sub| <= |s| && s[i..i + |sub|] == sub
    decreases |s|
  {
    if s[..|sub|] == sub {
      i := 0;
    } else {
      var j := ContainsIndex(s[1..], sub);
      assert s[1..][j..j + |sub|] == s[j + 1..j + 1 + |sub|];
      i := j + 1;
    }
  }

  /** What occurs in a piece of `a` occurs in `a`. */
  lemma ContainsTrans(a: string, b: string, c: string)
    requires Contains(a, b) && Contains(b, c)
    ensures Contains(a, c)
  {
    var i := ContainsIndex(a, b);
    var j := ContainsIndex(b, c);
    forall t | 0 <= t < |c|
      ensures a[i + j..i + j + |c|][t] == c[t]
    {
      assert c[t] == b[j..j + |c|][t] == b[j + t];
      assert b[j + t] == a[i..i + |b|][j + t] == a[i + j + t];
    }
    ContainsAt(a, c, i + j);
  }

  /** `s.startswith(p)`. */
  ghost predicate StartsWith(s: string, p: string) {
    |p| <= |s| && s[..|p|] == p
  }

  lemma StartsWithConcat(p: string, t: string)
    ensures StartsWith(p + t, p)
  {
    assert (p + t)[..|p|] == p;
  }

  lemma StartsWithAppend(s: string, p: string, t: string)
    requires StartsWith(s, p)
    ensures StartsWith(s + t, p)
  {
    assert (s + t)[..|p|] == s[..|p|];
  }

  lemma StartsWithTrans(s: string, t: string, p: string)
    requires StartsWith(s, t) && StartsWith(t, p)
    ensures StartsWith(s, p)
  {
    assert s[..|t|][..|p|] == s[..|p|];
  }

  /** What occurs in a prefix of `s` occurs in `s`. */
  lemma StartsWithContains(s: string, t: string, sub: string)
    requires StartsWith(s, t) && Contains(t, sub)
    ensures Contains(s, sub)
  {
    ContainsAt(s, t, 0);
    ContainsTrans(s, t, sub);
  }

  /** `any(m in s for m in markers)`. */
  predicate ContainsAny(s: string, markers: seq<string>) {
    exists k :: 0 <= k < |markers| && Contains(s, markers[k])
  }

  /** `any(m in a or m in b for m in markers)`, the shape of every marker loop
      that breaks or returns on its first hit. */
  predicate ContainsAnyIn2(a: string, b: string, markers: seq<string>) {
    ContainsAny(a, markers) || ContainsAny(b, markers)
  }

  /** The index of the first `c` in `s`, or `|s|` when there is none. */
  function IndexOf(s: string, c: char): (i: nat)
    ensures i <= |s|
    ensures i < |s| ==> s[i] == c
    ensures forall k :: 0 <= k < i ==> s[k] != c
    ensures i == |s| <==> c !in s
  {
    if s == [] then 0 else if s[0] == c then 0 else 1 + IndexOf(s[1..], c)
  }

  /** `s.split(c)[0]`: the text before the first `c`. */
  function Before(s: string, c: char): (r: string)
    ensures c !in r
    ensures |r| <= |s| && r == s[..|r|]
    ensures (c in s) == (|r| < |s|)
  {
    s[..IndexOf(s, c)]
  }

  /** `s.split(c)` for a single-character separator: empty pieces are kept and
      there is always at least one piece. */
  function SplitOn(s: string, c: char): (r: seq<string>)
    ensures |r| >= 1
    ensures forall k :: 0 <= k < |r| ==> c !in r[k]
    decreases |s|
  {
    var i := IndexOf(s, c);
    if i == |s| then [s] else [s[..i]] + SplitOn(s[i + 1..], c)
  }

  /** `c.join(parts)`. */
  function Join(parts: seq<string>, c: char): string {
    if parts == [] then [] else if |parts| == 1 then parts[0] else parts[0] + [c] + Join(parts[1..], c)
  }

  /** Splitting on `c` and joining with `c` gives back the text. */
  lemma {:induction false} JoinSplitOn(s: string, c: char)
    ensures Join(SplitOn(s, c), c) == s
    decreases |s|
  {
    var i := IndexOf(s, c);
    if i < |s| {
      JoinSplitOn(s[i + 1..], c);
      SplitOnStep(s, c, i);
      JoinCons(s[..i], SplitOn(s[i + 1..], c), c);
      SplitAround(s, i);
    }
  }

  lemma SplitAround(s: string, i: nat)
    requires i < |s|
    ensures s == s[..i] + [s[i]] + s[i + 1..]
  {
  }

  lemma SplitOnStep(s: string, c: char, i: nat)
    requires i == IndexOf(s, c) < |s|
    ensures SplitOn(s, c) == [s[..i]] + SplitOn(s[i + 1..], c)
  {
  }

  lemma JoinCons(a: string, tail: seq<string>, c: char)
    requires tail != []
    ensures Join([a] + tail, c) == a + [c] + Join(tail, c)
  {
    assert ([a] + tail)[1..] == tail;
  }

  /** Length of the leading run of non-space characters. */
  function WordLength(s: string): (n: nat)
    ensures n <= |s|
    ensures forall k :: 0 <= k < n ==> !IsSpace(s[k])
    ensures n < |s| ==> IsSpace(s[n])
  {
    if s == [] || IsSpace(s[0]) then 0 else 1 + WordLength(s[1..])
  }

  /** `s.split()` with no argument: runs of whitespace separate words and no
      word is empty. */
  function SplitWs(s: string): (r: seq<string>)
    ensures forall k :: 0 <= k < |r| ==> |r[k]| > 0
    ensures forall k, j :: 0 <= k < |r| && 0 <= j < |r[k]| ==> !IsSpace(r[k][j])
    decreases |s|
  {
    if s == [] then []
    else if IsSpace(s[0]) then SplitWs(s[1..])
    else
      var n := WordLength(s);
      [s[..n]] + SplitWs(s[n..])
  }

  /** A white-space character separates the words on its two sides. */
  lemma {:induction false} SplitWsSpace(a: string, c: char, b: string)
    requires IsSpace(c)
    ensures SplitWs(a + [c] + b) == SplitWs(a) + SplitWs(b)
    decreases |a|
  {
    var x := a + [c] + b;
    if a == [] {
      assert x == [c] + b;
      assert x[1..] == b;
    } else if IsSpace(a[0]) {
      assert x[1..] == a[1..] + [c] + b;
      SplitWsSpace(a[1..], c, b);
    } else {
      var n := WordLength(a);
      WordLengthSpace(a, c, b);
      assert x[..n] == a[..n];
      if n < |a| {
        assert x[n..] == a[n..] + [c] + b;
        SplitWsSpace(a[n..], c, b);
      } else {
        assert x[n..] == [c] + b;
        assert ([c] + b)[1..] == b;
        assert a[n..] == [];
      }
    }
  }

  lemma WordLengthSpace(a: string, c: char, b: string)
    requires IsSpace(c)
    ensures WordLength(a + [c] + b) == WordLength(a)
  {
    var x := a + [c] + b;
    var n := WordLength(a);
    assert forall k :: 0 <= k < n ==> x[k] == a[k];
    if n < |a| {
      assert x[n] == a[n];
    } else {
      assert x[n] == c;
    }
  }

  /** A run of non-space characters is one word. */
  lemma SplitWsWord(w: string)
    requires w != [] && forall k :: 0 <= k < |w| ==> !IsSpace(w[k])
    ensures SplitWs(w) == [w]
  {
    assert WordLength(w) == |w|;
    assert w[..|w|] == w && w[|w|..] == [];
  }

  /** Only white space gives no word. */
  lemma {:induction false} SplitWsBlank(s: string)
    requires forall k :: 0 <= k < |s| ==> IsSpace(s[k])
    ensures SplitWs(s) == []
    decreases |s|
  {
    if s != [] {
      SplitWsBlank(s[1..]);
    }
  }

  function StripLeft(s: string): (r: string)
    ensures |r| <= |s| && r == s[|s| - |r|..]
    ensures r != [] ==> !IsSpace(r[0])
    ensures forall k :: 0 <= k < |s| - |r| ==> IsSpace(s[k])
  {
    if s != [] && IsSpace(s[0]) then StripLeft(s[1..]) else s
  }

  function StripRight(s: string): (r: string)
    ensures |r| <= |s| && r == s[..|r|]
    ensures r != [] ==> !IsSpace(r[|r| - 1])
    ensures forall k :: |r| <= k < |s| ==> IsSpace(s[k])
  {
    if s != [] && IsSpace(s[|s| - 1]) then StripRight(s[..|s| - 1]) else s
  }

  /** `s.strip()`: the slice of `s` between its leading and trailing
      whitespace. */
  function Strip(s: string): (r: string)
    ensures |r| <= |s|
    ensures r != [] ==> !IsSpace(r[0]) && !IsSpace(r[|r| - 1])
  {
    StripRight(StripLeft(s))
  }

  /** What `strip` removes: the result is the slice of `s` that starts after
      the leading white space, and everything after it is white space too. */
  lemma StripSlice(s: string)
    ensures var r := Strip(s);
            var a := |s| - |StripLeft(s)|;
            && a + |r| <= |s| && r == s[a..a + |r|]
            && (forall k :: 0 <= k < a ==> IsSpace(s[k]))
            && (forall k :: a + |r| <= k < |s| ==> IsSpace(s[k]))
  {
    StripKeeps(s);
    StripDropsSpace(s);
  }

  lemma StripKeeps(s: string)
    ensures var r := Strip(s); var a := |s| - |StripLeft(s)|; a + |r| <= |s| && r == s[a..a + |r|]
  {
    var t := StripLeft(s);
    var r := StripRight(t);
    SliceOfSlice(s, |s| - |t|, |r|);
  }

  lemma SliceOfSlice(s: string, a: nat, n: nat)
    requires a + n <= |s|
    ensures s[a..][..n] == s[a..a + n]
  {
  }

  lemma StripDropsSpace(s: string)
    ensures var r := Strip(s); var a := |s| - |StripLeft(s)|;
            a + |r| <= |s| && forall k :: a + |r| <= k < |s| ==> IsSpace(s[k])
  {
    var t := StripLeft(s);
    var r := StripRight(t);
    var a := |s| - |t|;
    assert t == s[a..];
    forall k | a + |r| <= k < |s| ensures IsSpace(s[k]) {
      assert s[k] == t[k - a];
    }
  }

  /** `s.replace(a, b)` for single characters. */
  function ReplaceChar(s: string, a: char, b: char): (r: string)
    ensures |r| == |s|
    ensures a != b ==> a !in r
  {
    seq(|s|, i requires 0 <= i < |s| => if s[i] == a then b else s[i])
  }

  /** `re.sub(r'\([^)]*\)', '', s)`: every `(` that has a `)` after it is
      removed together with the text up to and including the next `)`. A `(`
      with no `)` after it is kept, and so is an unmatched `)`. */
  function RemoveParens(s: string): (r: string)
    ensures |r| <= |s|
    ensures forall i, j :: 0 <= i < j < |r| && r[i] == '(' ==> r[j] != ')'
    ensures '(' !in s || ')' !in s ==> r == s
    decreases |s|
  {
    if s == [] then []
    else if s[0] == '(' && ')' in s[1..] then
      RemoveParens(s[1..][IndexOf(s[1..], ')') + 1..])
    else
      assert [s[0]] + s[1..] == s;
      [s[0]] + RemoveParens(s[1..])
  }

  /** Text before the first `(` is kept as it is. */
  lemma {:induction false} RemoveParensPlain(a: string, b: string)
    requires '(' !in a
    ensures RemoveParens(a + b) == a + RemoveParens(b)
    decreases |a|
  {
    if a == [] {
      assert a + b == b;
    } else {
      var c, t := a[0], a[1..];
      assert a == [c] + t;
      assert '(' !in t;
      calc {
        RemoveParens(a + b);
        { assert a + b == [c] + (t + b); }
        RemoveParens([c] + (t + b));
        { RemoveParensCons(c, t + b); }
        [c] + RemoveParens(t + b);
        { RemoveParensPlain(t, b); }
        [c] + (t + RemoveParens(b));
        a + RemoveParens(b);
      }
    }
  }

  lemma RemoveParensCons(c: char, t: string)
    requires c != '('
    ensures RemoveParens([c] + t) == [c] + RemoveParens(t)
  {
    assert ([c] + t)[1..] == t;
  }

  /** A group `(g)` is dropped together with its parentheses. */
  lemma RemoveParensGroup(g: string, b: string)
    requires ')' !in g
    ensures RemoveParens(['('] + g + [')'] + b) == RemoveParens(b)
  {
    var s := ['('] + g + [')'] + b;
    var t := g + [')'] + b;
    assert s[1..] == t;
    assert t[|g|] == ')';
    assert forall k :: 0 <= k < |g| ==> t[k] == g[k];
    assert IndexOf(t, ')') == |g|;
    assert t[|g| + 1..] == b;
  }

  /** The pattern `\(([^)]+)\)` matches at `i`: a `(` whose next `)` is not
      directly after it. */
  predicate GroupAt(s: string, i: nat) {
    i < |s| && s[i] == '(' && 0 < IndexOf(s[i + 1..], ')') < |s| - i - 1
  }

  /** `re.search(r'\(([^)]+)\)', s)` and its group 1: the first `(` whose next
      `)` is not directly after it, and the text in between. */
  function FirstParenGroup(s: string): (r: Option<string>)
    ensures r.Some? ==> |r.value| > 0 && ')' !in r.value && Contains(s, ['('] + r.value + [')'])
    decreases |s|
  {
    if s == [] then None
    else if GroupAt(s, 0) then
      var g := s[1..IndexOf(s[1..], ')') + 1];
      assert s[0..|g| + 2] == ['('] + g + [')'];
      Some(g)
    else
      FirstParenGroup(s[1..])
  }

  /** The group found is the one at the first match, and there is none
      exactly when the pattern matches nowhere. */
  lemma {:induction false} FirstParenGroupFirst(s: string)
    ensures FirstParenGroup(s).None? <==> forall i :: 0 <= i < |s| ==> !GroupAt(s, i)
    ensures FirstParenGroup(s).Some? ==>
              exists i :: 0 <= i < |s| && GroupAt(s, i) && (forall k :: 0 <= k < i ==> !GroupAt(s, k)) &&
                          FirstParenGroup(s) == Some(Before(s[i + 1..], ')'))
    decreases |s|
  {
    if s != [] && GroupAt(s, 0) {
      assert s[1..][..IndexOf(s[1..], ')')] == s[1..IndexOf(s[1..], ')') + 1];
    } else if s != [] {
      var t := s[1..];
      FirstParenGroupFirst(t);
      forall i | 0 <= i < |t| ensures GroupAt(t, i) == GroupAt(s, i + 1) {
        assert t[i + 1..] == s[i + 2..];
      }
      if FirstParenGroup(t).Some? {
        var i :| 0 <= i < |t| && GroupAt(t, i) && (forall k :: 0 <= k < i ==> !GroupAt(t, k)) &&
                 FirstParenGroup(t) == Some(Before(t[i + 1..], ')'));
        assert t[i + 1..] == s[i + 2..];
        forall k | 0 <= k < i + 1 ensures !GroupAt(s, k) {
          if k > 0 { assert !GroupAt(t, k - 1); }
        }
        assert GroupAt(s, i + 1);
      } else {
        forall i | 0 <= i < |s| ensures !GroupAt(s, i) {
          if i > 0 { assert !GroupAt(t, i - 1); }
        }
      }
    }
  }

  /** The number of occurrences of `c`. */
  function CountChar(s: string, c: char): (n: nat)
    ensures n <= |s|
  {
    if s == [] then 0 else (if s[0] == c then 1 else 0) + CountChar(s[1..], c)
  }

  lemma {:induction false} CountCharZero(s: string, c: char)
    ensures CountChar(s, c) == 0 <==> c !in s
    decreases |s|
  {
    if s != [] {
      CountCharZero(s[1..], c);
      assert s == [s[0]] + s[1..];
    }
  }

  lemma {:induction false} CountCharConcat(a: string, b: string, c: char)
    ensures CountChar(a + b, c) == CountChar(a, c) + CountChar(b, c)
    decreases |a|
  {
    if a == [] {
      assert a + b == b;
    } else {
      assert (a + b)[1..] == a[1..] + b;
      CountCharConcat(a[1..], b, c);
    }
  }

  /** The part of an URL that `url.split('/', 3)[-1]` yields: after the third `/`,
      or after the last `/` when there are fewer; `""` when there is no `/`. */
  function UrlPath(url: string): (r: string)
    ensures '/' !in url ==> r == ""
  {
    if '/' in url then url[SlashCut(url, 3)..] else ""
  }

  /** With a `/` in the URL, the path is what follows a `/` after which the
      URL has passed three slashes, or all of them when it has fewer. */
  lemma UrlPathCut(url: string)
    requires '/' in url
    ensures var cut := |url| - |UrlPath(url)|;
            && 0 < cut && UrlPath(url) == url[cut..] && url[cut - 1] == '/'
            && CountChar(url[..cut], '/') == (if CountChar(url, '/') < 3 then CountChar(url, '/') else 3)
  {
    SlashCutCount(url, 3);
  }

  /** Where the last piece of `s.split('/', n)` starts: after the `n`-th
      slash, or after the last one when there are fewer. */
  function SlashCut(s: string, n: nat): (k: nat)
    ensures k <= |s|
    ensures 0 < k ==> s[k - 1] == '/'
    ensures n > 0 && '/' in s ==> 0 < k
  {
    if n == 0 || '/' !in s then 0
    else 1 + SlashCut(s[1..], if s[0] == '/' then n - 1 else n)
  }

  /** `SlashCut(s, n)` passes `n` slashes, or all of them when there are fewer. */
  lemma {:induction false} SlashCutCount(s: string, n: nat)
    ensures CountChar(s[..SlashCut(s, n)], '/') == (if CountChar(s, '/') < n then CountChar(s, '/') else n)
    decreases |s|
  {
    var k := SlashCut(s, n);
    if n == 0 || '/' !in s {
      CountCharZero(s, '/');
      assert s[..k] == [];
    } else {
      var one := if s[0] == '/' then 1 else 0;
      var t := s[1..];
      assert k == 1 + SlashCut(t, n - one);
      SlashCutCount(t, n - one);
      CountCharHead(s, k, '/');
      assert CountChar(s, '/') == one + CountChar(t, '/');
    }
  }

  lemma CountCharHead(s: string, k: nat, c: char)
    requires 0 < k <= |s|
    ensures CountChar(s[..k], c) == (if s[0] == c then 1 else 0) + CountChar(s[1..][..k - 1], c)
  {
    assert s[..k][1..] == s[1..][..k - 1];
  }

  /** `s[:n]` for a non-negative `n`. */
  function Prefix(s: string, n: nat): (r: string)
    ensures |r| == if n <= |s| then n else |s|
    ensures r == s[..|r|]
  {
    if n <= |s| then s[..n] else s
  }

  predicate IsLetter(c: char) {
    IsUpper(c) || IsLower(c)
  }

  /** A character of `str.title()`: a letter after a letter is lowered, any
      other letter raised, and every other character kept. */
  function TitleChar(c: char, afterLetter: bool): char {
    if !IsLetter(c) then c else if afterLetter then LowerChar(c) else UpperChar(c)
  }

  /** ASCII `str.title()`: a letter is upper-cased when the character before it
      is not a letter, and lower-cased otherwise. */
  function Title(s: string): (r: string)
    ensures |r| == |s|
    ensures forall i :: 0 <= i < |s| ==> r[i] == TitleChar(s[i], i > 0 && IsLetter(s[i - 1]))
  {
    TitleAfter(s, false)
  }

  function TitleAfter(s: string, afterLetter: bool): (r: string)
    ensures |r| == |s|
    ensures s != [] ==> r[0] == TitleChar(s[0], afterLetter)
    ensures forall i :: 0 < i < |s| ==> r[i] == TitleChar(s[i], IsLetter(s[i - 1]))
    decreases |s|
  {
    if s == [] then []
    else
      var rest := TitleAfter(s[1..], IsLetter(s[0]));
      var t := s[1..];
      assert forall k :: 0 <= k < |t| ==> t[k] == s[k + 1];
      [TitleChar(s[0], afterLetter)] + rest
  }

  function DigitChar(d: nat): (c: char)
    requires d < 10
    ensures IsDigit(c)
  {
    ('0' as int + d) as char
  }

  /** `str(n)` for a natural number: its decimal digits, most significant
      first, with no leading zero. */
  function NatToString(n: nat): (r: string)
    ensures |r| > 0
    ensures forall i :: 0 <= i < |r| ==> IsDigit(r[i])
    ensures (r[0] == '0') == (n == 0)
  {
    if n < 10 then [DigitChar(n)] else NatToString(n / 10) + [DigitChar(n % 10)]
  }

  /** The value of a string of decimal digits. */
  function DigitsValue(s: string): nat
    requires forall i :: 0 <= i < |s| ==> IsDigit(s[i])
  {
    if s == [] then 0
    else
      assert IsDigit(s[|s| - 1]);
      10 * DigitsValue(s[..|s| - 1]) + (s[|s| - 1] as int - '0' as int)
  }

  /** Reading back the decimal text gives the number. */
  lemma {:induction false} NatToStringValue(n: nat)
    ensures DigitsValue(NatToString(n)) == n
  {
    if n >= 10 {
      NatToStringValue(n / 10);
      var r := NatToString(n);
      assert r[..|r| - 1] == NatToString(n / 10);
    }
  }
}
