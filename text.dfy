/** The JavaScript string operations the modelled code relies on:
    `trim`, `padStart`, `String(n)` for integers, the two newline
    replacements, a leading-prefix `replace`, and splitting/joining on one
    separator character (used by the parsers that serve as partners of the
    formatters); and the message of the `TypeError` the formatters throw
    when they read through a missing property. */
module Text {
  import opened Wrappers

  /** The message of the `TypeError` thrown when reading `property` of
      `undefined`. */
  function ReadError(property: string): string {
    "Cannot read properties of undefined (reading '" + property + "')"
  }

  // ---------------------------------------------------------------------
  // Whitespace and trim

  /** The code points that `String.prototype.trim` removes: ECMAScript's
      WhiteSpace (tab, vertical tab, form feed, space, no-break space, the
      byte order mark and the Unicode space separators) and LineTerminator
      (line feed, carriage return, line and paragraph separator). */
  predicate IsJsWhitespace(c: char) {
    c in JsWhitespace
  }

  const JsWhitespace: set<char> := {
    '\t', '\n', '\U{000B}', '\U{000C}', '\r', ' ', '\U{00A0}', '\U{1680}',
    '\U{2000}', '\U{2001}', '\U{2002}', '\U{2003}', '\U{2004}', '\U{2005}',
    '\U{2006}', '\U{2007}', '\U{2008}', '\U{2009}', '\U{200A}',
    '\U{2028}', '\U{2029}', '\U{202F}', '\U{205F}', '\U{3000}', '\U{FEFF}'}

  predicate AllWhitespace(s: string) {
    forall i :: 0 <= i < |s| ==> IsJsWhitespace(s[i])
  }

  /** Neither the first nor the last character is whitespace. */
  predicate IsTrimmed(s: string) {
    s == [] || (!IsJsWhitespace(s[0]) && !IsJsWhitespace(s[|s| - 1]))
  }

  /** The number of whitespace characters `s` starts with. */
  function LeadingBlanks(s: string): (n: nat)
    ensures n <= |s| && AllWhitespace(s[..n])
    ensures n < |s| ==> !IsJsWhitespace(s[n])
  {
    if s != [] && IsJsWhitespace(s[0]) then
      var m := LeadingBlanks(s[1..]);
      LeadingStep(s, m);
      m + 1
    else 0
  }

  /** The number of whitespace characters `s` ends with. */
  function TrailingBlanks(s: string): (n: nat)
    ensures n <= |s| && AllWhitespace(s[|s| - n..])
    ensures n < |s| ==> !IsJsWhitespace(s[|s| - n - 1])
  {
    if s != [] && IsJsWhitespace(s[|s| - 1]) then
      var m := TrailingBlanks(s[..|s| - 1]);
      TrailingStep(s, m);
      m + 1
    else 0
  }

  lemma LeadingStep(s: string, m: nat)
    requires s != [] && IsJsWhitespace(s[0])
    requires m <= |s| - 1 && AllWhitespace(s[1..][..m])
    requires m < |s| - 1 ==> !IsJsWhitespace(s[1..][m])
    ensures AllWhitespace(s[..m + 1])
    ensures m + 1 < |s| ==> !IsJsWhitespace(s[m + 1])
  {
    WhitespaceCons(s[0], s[1..][..m]);
    assert [s[0]] + s[1..][..m] == s[..m + 1];
  }

  lemma TrailingStep(s: string, m: nat)
    requires s != [] && IsJsWhitespace(s[|s| - 1])
    requires m <= |s| - 1 && AllWhitespace(s[..|s| - 1][|s| - 1 - m..])
    requires m < |s| - 1 ==> !IsJsWhitespace(s[..|s| - 1][|s| - 1 - m - 1])
    ensures AllWhitespace(s[|s| - (m + 1)..])
    ensures m + 1 < |s| ==> !IsJsWhitespace(s[|s| - (m + 1) - 1])
  {
    WhitespaceSnoc(s[..|s| - 1][|s| - 1 - m..], s[|s| - 1]);
    assert s[..|s| - 1][|s| - 1 - m..] + [s[|s| - 1]] == s[|s| - (m + 1)..];
  }

  lemma WhitespaceCons(c: char, w: string)
    requires IsJsWhitespace(c) && AllWhitespace(w)
    ensures AllWhitespace([c] + w)
  {
    forall i | 0 <= i < |[c] + w|
      ensures IsJsWhitespace(([c] + w)[i])
    {
      if i > 0 { assert ([c] + w)[i] == w[i - 1]; }
    }
  }

  lemma WhitespaceSnoc(w: string, c: char)
    requires AllWhitespace(w) && IsJsWhitespace(c)
    ensures AllWhitespace(w + [c])
  {
    forall i | 0 <= i < |w + [c]|
      ensures IsJsWhitespace((w + [c])[i])
    {
      if i < |w| { assert (w + [c])[i] == w[i]; }
    }
  }

  /** Drops the leading whitespace. */
  function TrimStart(s: string): (r: string)
    ensures |r| <= |s| && r == s[|s| - |r|..]
    ensures r == [] || !IsJsWhitespace(r[0])
    ensures AllWhitespace(s[..|s| - |r|])
  {
    s[LeadingBlanks(s)..]
  }

  /** Drops the trailing whitespace. */
  function TrimEnd(s: string): (r: string)
    ensures |r| <= |s| && r == s[..|r|]
    ensures r == [] || !IsJsWhitespace(r[|r| - 1])
    ensures AllWhitespace(s[|r|..])
  {
    s[..|s| - TrailingBlanks(s)]
  }

  /** `s.trim()`. */
  function Trim(s: string): (r: string)
    ensures IsTrimmed(r) && |r| <= |s|
  {
    TrimEnd(TrimStart(s))
  }

  /** What `trim` returns is the slice of `s` that starts where the
      leading whitespace ends; all it leaves out before and after is
      whitespace. */
  lemma {:induction false} TrimIsSlice(s: string)
    ensures var k := LeadingBlanks(s);
      k + |Trim(s)| <= |s| && Trim(s) == s[k..k + |Trim(s)|] &&
      AllWhitespace(s[..k]) && AllWhitespace(s[k + |Trim(s)|..])
  {
    TrimPartsSlice(s);
  }

  lemma {:induction false} TrimPartsSlice(s: string)
    ensures var k := LeadingBlanks(s); var r := TrimEnd(TrimStart(s));
      k + |r| <= |s| && r == s[k..k + |r|] &&
      AllWhitespace(s[..k]) && AllWhitespace(s[k + |r|..])
  {
    var t := TrimStart(s);
    SliceOfParts(s, LeadingBlanks(s), t, TrimEnd(t));
  }

  /** A prefix `r` of the suffix `t` of `s` that starts at `k` is the
      slice of `s` from `k`; when what `t` has after `r` is whitespace, so
      is what `s` has after it. */
  lemma SliceOfParts(s: string, k: nat, t: string, r: string)
    requires k <= |s| && t == s[k..] && |r| <= |t| && r == t[..|r|]
    requires AllWhitespace(t[|r|..])
    ensures k + |r| <= |s| && r == s[k..k + |r|] && AllWhitespace(s[k + |r|..])
  {
    assert s[k + |r|..] == t[|r|..];
  }

  /** Trimming only removes characters: one absent before is absent after. */
  lemma TrimKeepsAbsent(s: string, ch: char)
    requires ch !in s
    ensures ch !in Trim(s)
  {
    var t := TrimStart(s);
    var a := |s| - |t|;
    assert Trim(s) == t[..|Trim(s)|];
    SliceKeepsAbsent(s, ch, a, |s|);
    SliceKeepsAbsent(t, ch, 0, |Trim(s)|);
  }

  lemma SliceKeepsAbsent(s: string, ch: char, a: nat, b: nat)
    requires ch !in s && a <= b <= |s|
    ensures ch !in s[a..b]
  {
  }

  /** Trimming changes nothing on a string that is already trimmed, so
      trimming twice is trimming once. */
  lemma TrimOfTrimmed(s: string)
    requires IsTrimmed(s)
    ensures Trim(s) == s
  {
  }

  lemma {:induction false} TrailingBlanksOf(x: string, w: string)
    requires x == [] || !IsJsWhitespace(x[|x| - 1])
    requires AllWhitespace(w)
    ensures TrailingBlanks(x + w) == |w|
    decreases |w|
  {
    if w != [] {
      assert (x + w)[..|x + w| - 1] == x + w[..|w| - 1];
      assert (x + w)[|x + w| - 1] == w[|w| - 1];
      TrailingBlanksOf(x, w[..|w| - 1]);
    } else {
      assert x + w == x;
    }
  }

  lemma TrimEndDropsWhitespace(x: string, w: string)
    requires x == [] || !IsJsWhitespace(x[|x| - 1])
    requires AllWhitespace(w)
    ensures TrimEnd(x + w) == x
  {
    TrailingBlanksOf(x, w);
    assert (x + w)[..|x|] == x;
  }

  /** Trimming a trimmed, non-empty text followed by whitespace gives back
      the text. */
  lemma TrimDropsTrailingWhitespace(x: string, w: string)
    requires x != [] && IsTrimmed(x)
    requires AllWhitespace(w)
    ensures Trim(x + w) == x
  {
    assert (x + w)[0] == x[0];
    assert TrimStart(x + w) == x + w;
    TrimEndDropsWhitespace(x, w);
  }

  // ---------------------------------------------------------------------
  // Newline replacement

  /** `s.replace(/\n/g, " ")`: every line feed becomes one space. */
  function ReplaceNewlines(s: string): string {
    seq(|s|, i requires 0 <= i < |s| => if s[i] == '\n' then ' ' else s[i])
  }

  /** Replacing line feeds keeps a trimmed text trimmed and leaves no line
      feed behind; every other character stays where it was. */
  lemma ReplaceNewlinesOfTrimmed(s: string)
    requires IsTrimmed(s)
    ensures IsTrimmed(ReplaceNewlines(s)) && |ReplaceNewlines(s)| == |s|
    ensures '\n' !in ReplaceNewlines(s)
    ensures forall i :: 0 <= i < |s| && s[i] != '\n' ==> ReplaceNewlines(s)[i] == s[i]
  {
    var r := ReplaceNewlines(s);
    if s != [] {
      assert IsJsWhitespace('\n');
      assert s[0] != '\n' && s[|s| - 1] != '\n';
      assert r[0] == s[0] && r[|r| - 1] == s[|s| - 1];
    }
  }

  /** A text without line feeds is left as it is. */
  lemma ReplaceNewlinesWithout(s: string)
    requires '\n' !in s
    ensures ReplaceNewlines(s) == s
  {
  }

  /** Drops the leading line feeds. */
  function DropNewlines(s: string): (r: string)
    ensures |r| <= |s|
    ensures s != [] && s[0] == '\n' ==> |r| < |s|
  {
    if s != [] && s[0] == '\n' then DropNewlines(s[1..]) else s
  }

  /** `s.replace(/\n+/g, " ")`: every maximal run of line feeds becomes a
      single space. */
  function CollapseNewlines(s: string): (r: string)
    ensures '\n' !in r
    ensures |r| <= |s|
    decreases |s|
  {
    if s == [] then []
    else if s[0] == '\n' then " " + CollapseNewlines(DropNewlines(s))
    else [s[0]] + CollapseNewlines(s[1..])
  }

  function Repeat(c: char, n: nat): (r: string)
    ensures |r| == n && forall i :: 0 <= i < n ==> r[i] == c
  {
    if n == 0 then [] else [c] + Repeat(c, n - 1)
  }

  /** A text without line feeds is left as it is. */
  lemma {:induction false} CollapseWithoutNewlines(s: string)
    requires '\n' !in s
    ensures CollapseNewlines(s) == s
  {
    if s != [] {
      assert s == [s[0]] + s[1..];
      CollapseWithoutNewlines(s[1..]);
    }
  }

  /** A run of one or more line feeds between a newline-free text and a
      text that does not start with one turns into exactly one space. */
  lemma {:induction false} CollapseRun(a: string, k: nat, b: string)
    requires '\n' !in a && k >= 1
    requires b == [] || b[0] != '\n'
    ensures CollapseNewlines(a + Repeat('\n', k) + b) == a + " " + CollapseNewlines(b)
    decreases |a|
  {
    var s := a + Repeat('\n', k) + b;
    if a == [] {
      assert s == Repeat('\n', k) + b;
      DropRun(k, b);
    } else {
      assert s[0] == a[0];
      assert s[1..] == a[1..] + Repeat('\n', k) + b;
      CollapseRun(a[1..], k, b);
      assert a == [a[0]] + a[1..];
    }
  }

  lemma {:induction false} DropRun(k: nat, b: string)
    requires b == [] || b[0] != '\n'
    ensures DropNewlines(Repeat('\n', k) + b) == b
    decreases k
  {
    if k > 0 {
      var s := Repeat('\n', k) + b;
      assert Repeat('\n', k) == ['\n'] + Repeat('\n', k - 1);
      assert s[0] == '\n';
      assert s[1..] == Repeat('\n', k - 1) + b;
      assert DropNewlines(s) == DropNewlines(s[1..]);
      DropRun(k - 1, b);
    } else {
      assert Repeat('\n', k) + b == b;
    }
  }

  // ---------------------------------------------------------------------
  // Decimal digits, `String(n)` and `padStart`

  predicate IsDigit(c: char) {
    '0' <= c <= '9'
  }

  predicate AllDigits(s: string) {
    forall i :: 0 <= i < |s| ==> IsDigit(s[i])
  }

  function DigitChar(d: nat): (c: char)
    requires d < 10
    ensures IsDigit(c) && c as int - '0' as int == d
  {
    ('0' as int + d) as char
  }

  /** `String(n)` for a non-negative integer: its decimal digits, most
      significant first, without leading zeros. */
  function NatToString(n: nat): (s: string)
    ensures s != [] && AllDigits(s)
    ensures n < 10 ==> |s| == 1
    ensures 10 <= n < 100 ==> |s| == 2
    ensures 100 <= n < 1000 ==> |s| == 3
    ensures 1000 <= n < 10000 ==> |s| == 4
    ensures n >= 10 ==> s[0] != '0'
    decreases n
  {
    if n < 10 then [DigitChar(n)] else NatToString(n / 10) + [DigitChar(n % 10)]
  }

  /** `String(i)` for an integer: a minus sign before the digits of a
      negative number. */
  function IntToString(i: int): string {
    if i < 0 then "-" + NatToString(-i) else NatToString(i)
  }

  /** The number a string of decimal digits denotes. */
  function DigitsValue(s: string): nat
    requires AllDigits(s)
  {
    if s == [] then 0 else DigitsValue(s[..|s| - 1]) * 10 + (s[|s| - 1] as int - '0' as int)
  }

  /** Reading back the digits `String(n)` writes gives `n`. */
  lemma {:induction false} NatToStringValue(n: nat)
    ensures DigitsValue(NatToString(n)) == n
    decreases n
  {
    if n >= 10 {
      var s := NatToString(n);
      assert s[..|s| - 1] == NatToString(n / 10);
      NatToStringValue(n / 10);
    }
  }

  /** Leading zeros do not change the value of a digit string. */
  lemma {:induction false} LeadingZerosValue(k: nat, s: string)
    requires AllDigits(s)
    ensures AllDigits(Repeat('0', k) + s)
    ensures DigitsValue(Repeat('0', k) + s) == DigitsValue(s)
    decreases |s|
  {
    var z := Repeat('0', k);
    if s == [] {
      assert z + s == z;
      ZerosValue(k);
    } else {
      var t := z + s;
      assert t[..|t| - 1] == z + s[..|s| - 1];
      LeadingZerosValue(k, s[..|s| - 1]);
    }
  }

  lemma {:induction false} ZerosValue(k: nat)
    ensures AllDigits(Repeat('0', k)) && DigitsValue(Repeat('0', k)) == 0
    decreases k
  {
    if k > 0 {
      var z := Repeat('0', k);
      assert z[..|z| - 1] == Repeat('0', k - 1);
      ZerosValue(k - 1);
    }
  }

  /** `s.padStart(width, fill)`: `fill` repeated in front of `s` until it
      is `width` characters long; a string already that long is unchanged. */
  function PadStart(s: string, width: nat, fill: char): (r: string)
    ensures |r| == if |s| < width then width else |s|
    ensures r[|r| - |s|..] == s
    ensures forall i :: 0 <= i < |r| - |s| ==> r[i] == fill
  {
    if |s| < width then Repeat(fill, width - |s|) + s else s
  }

  /** Parses a non-empty string of decimal digits. */
  function ParseNat(s: string): Option<nat> {
    if s != [] && AllDigits(s) then Some(DigitsValue(s)) else None
  }

  /** A zero-padded `String(n)` reads back as `n`. */
  lemma PaddedNatValue(n: nat, width: nat)
    ensures AllDigits(PadStart(NatToString(n), width, '0'))
    ensures ParseNat(PadStart(NatToString(n), width, '0')) == Some(n)
  {
    var s := NatToString(n);
    NatToStringValue(n);
    if |s| < width {
      LeadingZerosValue(width - |s|, s);
    }
  }

  // ---------------------------------------------------------------------
  // Prefixes, search, split and join

  predicate StartsWith(s: string, p: string) {
    |p| <= |s| && s[..|p|] == p
  }

  /** `s.replace(/^p/, q)`: a leading `p` is replaced by `q` once; any
      other string is returned unchanged. */
  function ReplaceLeading(s: string, p: string, q: string): string {
    if StartsWith(s, p) then q + s[|p|..] else s
  }

  /** The position of the first occurrence of `c`. */
  function IndexOf(s: string, c: char): (r: Option<nat>)
    ensures r.Some? ==> r.value < |s| && s[r.value] == c
  {
    if s == [] then None
    else if s[0] == c then Some(0)
    else match IndexOf(s[1..], c)
      case None => None
      case Some(i) => Some(i + 1)
  }

  /** The separator after a text free of it is the first one found. */
  lemma {:induction false} IndexOfSeparator(a: string, c: char, b: string)
    requires c !in a
    ensures IndexOf(a + [c] + b, c) == Some(|a|)
  {
    if a != [] {
      assert (a + [c] + b)[1..] == a[1..] + [c] + b;
      IndexOfSeparator(a[1..], c, b);
    }
  }

  /** A text without the character has no occurrence of it. */
  lemma {:induction false} IndexOfAbsent(s: string, c: char)
    requires c !in s
    ensures IndexOf(s, c) == None
  {
    if s != [] {
      IndexOfAbsent(s[1..], c);
    }
  }

  /** `s.split(c)`. */
  function Split(s: string, c: char): (r: seq<string>)
    ensures |r| >= 1
    decreases |s|
  {
    match IndexOf(s, c)
    case None => [s]
    case Some(i) => [s[..i]] + Split(s[i + 1..], c)
  }

  /** `parts.join(c)`. */
  function Join(parts: seq<string>, c: char): string
    requires |parts| >= 1
  {
    if |parts| == 1 then parts[0] else parts[0] + [c] + Join(parts[1..], c)
  }

  /** Joining three parts puts the separator between them. */
  lemma JoinThree(a: string, b: string, d: string, c: char)
    ensures Join([a, b, d], c) == a + [c] + b + [c] + d
  {
    assert [a, b, d][1..] == [b, d];
    assert [b, d][1..] == [d];
    assert Join([b, d], c) == b + [c] + d;
  }

  /** Splitting on a separator that no part contains gives back the parts. */
  lemma {:induction false} SplitJoin(parts: seq<string>, c: char)
    requires |parts| >= 1
    requires forall i :: 0 <= i < |parts| ==> c !in parts[i]
    ensures Split(Join(parts, c), c) == parts
  {
    if |parts| == 1 {
      IndexOfAbsent(parts[0], c);
    } else {
      var rest := Join(parts[1..], c);
      var s := parts[0] + [c] + rest;
      IndexOfSeparator(parts[0], c, rest);
      assert s[..|parts[0]|] == parts[0];
      assert s[|parts[0]| + 1..] == rest;
      SplitJoin(parts[1..], c);
    }
  }

  lemma {:induction false} JoinAppend(xs: seq<string>, ys: seq<string>, c: char)
    requires |xs| >= 1 && |ys| >= 1
    ensures Join(xs + ys, c) == Join(xs, c) + [c] + Join(ys, c)
  {
    if |xs| == 1 {
      assert (xs + ys)[1..] == ys;
    } else {
      assert (xs + ys)[1..] == xs[1..] + ys;
      JoinAppend(xs[1..], ys, c);
    }
  }

  lemma {:induction false} NoSeparatorInJoin(parts: seq<string>, c: char, d: char)
    requires |parts| >= 1 && c != d
    requires forall i :: 0 <= i < |parts| ==> d !in parts[i]
    ensures d !in Join(parts, c)
  {
    if |parts| > 1 {
      NoSeparatorInJoin(parts[1..], c, d);
    }
  }
}
