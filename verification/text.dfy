/** String operations the backend takes from Python's `str`: whitespace
    stripping and splitting, joining, splitting on a separator, substring and
    prefix tests, lower-casing and decimal rendering of integers. */
module Text {
  import Lists

  /** The code points for which Python's `str.isspace()` holds. */
  const Whitespace: set<char> := {
    ' ', '\t', '\n', '\r', '\U{0B}', '\U{0C}', '\U{1C}', '\U{1D}', '\U{1E}', '\U{1F}',
    '\U{85}', '\U{A0}', '\U{1680}', '\U{2000}', '\U{2001}', '\U{2002}', '\U{2003}',
    '\U{2004}', '\U{2005}', '\U{2006}', '\U{2007}', '\U{2008}', '\U{2009}', '\U{200A}',
    '\U{2028}', '\U{2029}', '\U{202F}', '\U{205F}', '\U{3000}'
  }

  predicate IsSpace(c: char) {
    c in Whitespace
  }

  predicate AllIn(s: string, cs: set<char>) {
    forall i :: 0 <= i < |s| ==> s[i] in cs
  }

  // ---------------------------------------------------------------------------
  // Stripping
  // ---------------------------------------------------------------------------

  /** The first index at or after `i` whose character is not in `cs`. */
  function SkipLeft(s: string, cs: set<char>, i: nat): (j: nat)
    requires i <= |s|
    ensures i <= j <= |s|
    ensures forall k :: i <= k < j ==> s[k] in cs
    ensures j == |s| || s[j] !in cs
    decreases |s| - i
  {
    if i < |s| && s[i] in cs then SkipLeft(s, cs, i + 1) else i
  }

  /** The end of `s[lo..hi]` once its trailing characters of `cs` are dropped. */
  function SkipRight(s: string, cs: set<char>, lo: nat, hi: nat): (j: nat)
    requires lo <= hi <= |s|
    ensures lo <= j <= hi
    ensures forall k :: j <= k < hi ==> s[k] in cs
    ensures j == lo || s[j - 1] !in cs
    decreases hi - lo
  {
    if lo < hi && s[hi - 1] in cs then SkipRight(s, cs, lo, hi - 1) else hi
  }

  /** `s.lstrip(cs)`. */
  function TrimLeft(s: string, cs: set<char>): string {
    s[SkipLeft(s, cs, 0)..]
  }

  /** `s.rstrip(cs)`: a prefix of `s` that does not end with a character of `cs`,
      and everything it drops is in `cs`. */
  function TrimRight(s: string, cs: set<char>): (r: string)
    ensures |r| <= |s| && r == s[..|r|]
    ensures r == [] || r[|r| - 1] !in cs
    ensures forall k :: |r| <= k < |s| ==> s[k] in cs
  {
    s[..SkipRight(s, cs, 0, |s|)]
  }

  /** `s.strip(cs)`: the slice of `s` left once both ends are trimmed of
      characters of `cs`; it is empty exactly when every character of `s` is in
      `cs`. */
  function StripChars(s: string, cs: set<char>): (r: string)
    ensures |r| <= |s|
    ensures r == [] || (r[0] !in cs && r[|r| - 1] !in cs)
    ensures r == [] <==> AllIn(s, cs)
  {
    var lo := SkipLeft(s, cs, 0);
    var hi := SkipRight(s, cs, lo, |s|);
    assert lo < |s| ==> lo < hi;
    s[lo..hi]
  }

  /** Python's `s.strip()`. */
  function Strip(s: string): string {
    StripChars(s, Whitespace)
  }

  predicate IsBlank(s: string) {
    Strip(s) == []
  }

  lemma {:induction false} SkipLeftNoop(s: string, cs: set<char>)
    requires s == [] || s[0] !in cs
    ensures SkipLeft(s, cs, 0) == 0
  {
  }

  lemma {:induction false} SkipRightNoop(s: string, cs: set<char>, lo: nat)
    requires lo <= |s|
    requires |s| == lo || s[|s| - 1] !in cs
    ensures SkipRight(s, cs, lo, |s|) == |s|
  {
  }

  /** Stripping twice strips nothing more. */
  lemma StripCharsIdempotent(s: string, cs: set<char>)
    ensures StripChars(StripChars(s, cs), cs) == StripChars(s, cs)
  {
    var r := StripChars(s, cs);
    SkipLeftNoop(r, cs);
    SkipRightNoop(r, cs, 0);
    assert r[0..|r|] == r;
  }

  // ---------------------------------------------------------------------------
  // Whitespace splitting and joining
  // ---------------------------------------------------------------------------

  /** A word of `str.split()`: non-empty and free of whitespace. */
  predicate IsWord(w: string) {
    w != [] && forall i :: 0 <= i < |w| ==> !IsSpace(w[i])
  }

  /** The longest prefix of `s` that holds no whitespace. */
  function LeadingWord(s: string): (w: string)
    ensures |w| <= |s| && w == s[..|w|]
    ensures forall i :: 0 <= i < |w| ==> !IsSpace(w[i])
    ensures |w| == |s| || IsSpace(s[|w|])
    ensures s != [] && !IsSpace(s[0]) ==> |w| >= 1
  {
    if s == [] || IsSpace(s[0]) then [] else [s[0]] + LeadingWord(s[1..])
  }

  /** Python's `s.split()`: the maximal runs of non-whitespace characters. */
  function Split(s: string): (ws: seq<string>)
    ensures forall i :: 0 <= i < |ws| ==> IsWord(ws[i])
    decreases |s|
  {
    if s == [] then []
    else if IsSpace(s[0]) then Split(s[1..])
    else
      var w := LeadingWord(s);
      [w] + Split(s[|w|..])
  }

  /** Python's `sep.join(xs)`. */
  function Join(sep: string, xs: seq<string>): string {
    if xs == [] then ""
    else if |xs| == 1 then xs[0]
    else xs[0] + sep + Join(sep, xs[1..])
  }

  lemma {:induction false} JoinSnoc(sep: string, xs: seq<string>, x: string)
    requires xs != []
    ensures Join(sep, xs + [x]) == Join(sep, xs) + sep + x
    decreases |xs|
  {
    if |xs| == 1 {
      assert xs + [x] == [xs[0], x];
    } else {
      assert (xs + [x])[1..] == xs[1..] + [x];
      JoinSnoc(sep, xs[1..], x);
    }
  }

  /** Joining two non-empty lists puts one separator between their joins. */
  lemma {:induction false} JoinAppend(sep: string, a: seq<string>, b: seq<string>)
    requires a != [] && b != []
    ensures Join(sep, a + b) == Join(sep, a) + sep + Join(sep, b)
    decreases |a|
  {
    if |a| == 1 {
      assert (a + b)[1..] == b;
    } else {
      assert (a + b)[1..] == a[1..] + b;
      JoinAppend(sep, a[1..], b);
    }
  }

  /** Each block's lines joined by `sep`, every block preceded by `sep`. */
  function PrefixedJoins(sep: string, bs: seq<seq<string>>): string {
    if bs == [] then "" else sep + Join(sep, bs[0]) + PrefixedJoins(sep, bs[1..])
  }

  /** Joining the lines of several non-empty blocks at once is joining each
      block and separating the blocks by `sep`. */
  lemma {:induction false} JoinFlatten(sep: string, bs: seq<seq<string>>)
    requires bs != [] && forall i :: 0 <= i < |bs| ==> bs[i] != []
    ensures sep + Join(sep, Lists.Flatten(bs)) == PrefixedJoins(sep, bs)
  {
    var rest := Lists.Flatten(bs[1..]);
    assert Lists.Flatten(bs) == bs[0] + rest;
    if bs[1..] == [] {
      assert bs[0] + rest == bs[0];
    } else {
      assert bs[1..][0] == bs[1];
      assert rest == bs[1] + Lists.Flatten(bs[2..]) by {
        assert bs[1..][1..] == bs[2..];
      }
      JoinAppend(sep, bs[0], rest);
      JoinFlatten(sep, bs[1..]);
      var a := Join(sep, bs[0]);
      var b := Join(sep, rest);
      assert sep + (a + sep + b) == (sep + a) + (sep + b);
    }
  }

  /** Length of a joined list: the parts plus one separator between each pair. */
  function SumLengths(xs: seq<string>): nat {
    if xs == [] then 0 else |xs[0]| + SumLengths(xs[1..])
  }

  lemma {:induction false} JoinLength(sep: string, xs: seq<string>)
    requires xs != []
    ensures |Join(sep, xs)| == SumLengths(xs) + (|xs| - 1) * |sep|
    decreases |xs|
  {
    if |xs| > 1 {
      JoinLength(sep, xs[1..]);
    }
  }

  lemma {:induction false} SplitWordThenRest(w: string, rest: string)
    requires IsWord(w)
    requires rest == [] || IsSpace(rest[0])
    ensures Split(w + rest) == [w] + Split(rest)
  {
    var s := w + rest;
    LeadingWordOf(w, rest);
    assert s[|w|..] == rest;
  }

  lemma {:induction false} LeadingWordOf(w: string, rest: string)
    requires forall i :: 0 <= i < |w| ==> !IsSpace(w[i])
    requires rest == [] || IsSpace(rest[0])
    ensures LeadingWord(w + rest) == w
    decreases |w|
  {
    if w != [] {
      assert (w + rest)[1..] == w[1..] + rest;
      LeadingWordOf(w[1..], rest);
    }
  }

  /** Splitting a space-joined list of words gives the words back. */
  lemma {:induction false} SplitJoin(ws: seq<string>)
    requires forall i :: 0 <= i < |ws| ==> IsWord(ws[i])
    ensures Split(Join(" ", ws)) == ws
    decreases |ws|
  {
    if ws == [] {
    } else if |ws| == 1 {
      SplitWordThenRest(ws[0], "");
      assert ws[0] + "" == ws[0];
    } else {
      var tail := Join(" ", ws[1..]);
      assert Join(" ", ws) == ws[0] + (" " + tail);
      SplitWordThenRest(ws[0], " " + tail);
      assert (" " + tail)[1..] == tail;
      SplitJoin(ws[1..]);
    }
  }

  // ---------------------------------------------------------------------------
  // Splitting on one separator character
  // ---------------------------------------------------------------------------

  /** Python's `s.split(d)` for a one-character separator: always at least one
      part, and no part holds the separator. */
  function SplitOn(s: string, d: char): (parts: seq<string>)
    ensures |parts| >= 1
    ensures forall i :: 0 <= i < |parts| ==> d !in parts[i]
  {
    if s == [] then [""]
    else
      var rest := SplitOn(s[1..], d);
      if s[0] == d then [""] + rest
      else [[s[0]] + rest[0]] + rest[1..]
  }

  /** Joining the parts with the separator restores the string. */
  lemma {:induction false} JoinSplitOn(s: string, d: char)
    ensures Join([d], SplitOn(s, d)) == s
  {
    if s != [] {
      var rest := SplitOn(s[1..], d);
      JoinSplitOn(s[1..], d);
      if s[0] == d {
        assert Join([d], [""] + rest) == "" + [d] + Join([d], rest);
        assert s == [s[0]] + s[1..];
      } else {
        var parts := [[s[0]] + rest[0]] + rest[1..];
        if |rest| == 1 {
          assert Join([d], parts) == [s[0]] + rest[0];
        } else {
          assert parts[1..] == rest[1..];
          assert Join([d], parts) == [s[0]] + rest[0] + [d] + Join([d], rest[1..]);
          assert Join([d], rest) == rest[0] + [d] + Join([d], rest[1..]);
        }
        assert s == [s[0]] + s[1..];
      }
    }
  }

  /** Splitting a separator-joined list of separator-free parts gives them back. */
  lemma {:induction false} SplitOnJoin(parts: seq<string>, d: char)
    requires parts != []
    requires forall i :: 0 <= i < |parts| ==> d !in parts[i]
    ensures SplitOn(Join([d], parts), d) == parts
    decreases |parts|
  {
    if |parts| == 1 {
      SplitOnFree(parts[0], d);
    } else {
      var tail := Join([d], parts[1..]);
      assert Join([d], parts) == parts[0] + [d] + tail;
      SplitOnPrefix(parts[0], tail, d);
      SplitOnJoin(parts[1..], d);
    }
  }

  /** A separator-free prefix followed by the separator is split off as one part. */
  lemma {:induction false} SplitOnPrefix(p: string, rest: string, d: char)
    requires d !in p
    ensures SplitOn(p + [d] + rest, d) == [p] + SplitOn(rest, d)
    decreases |p|
  {
    if p == [] {
      assert p + [d] + rest == [d] + rest;
      assert ([d] + rest)[1..] == rest;
    } else {
      var s := p + [d] + rest;
      assert s[1..] == p[1..] + [d] + rest;
      assert d !in p[1..] by {
        forall c | c in p[1..] ensures c in p { }
      }
      SplitOnPrefix(p[1..], rest, d);
      assert p[0] in p;
      assert [p[0]] + p[1..] == p;
    }
  }

  /** A string without the separator splits into itself. */
  lemma {:induction false} SplitOnFree(s: string, d: char)
    requires d !in s
    ensures SplitOn(s, d) == [s]
  {
    if s != [] {
      assert d !in s[1..] by {
        forall c | c in s[1..] ensures c in s { }
      }
      SplitOnFree(s[1..], d);
      assert s == [s[0]] + s[1..];
    }
  }

  // ---------------------------------------------------------------------------
  // Searching
  // ---------------------------------------------------------------------------

  /** Python's `sub in s` on strings. */
  predicate Contains(s: string, sub: string) {
    exists i :: 0 <= i <= |s| - |sub| && OccursAt(s, sub, i)
  }

  predicate OccursAt(s: string, sub: string, i: int) {
    0 <= i <= |s| - |sub| && s[i..i + |sub|] == sub
  }

  predicate StartsWith(s: string, prefix: string) {
    |prefix| <= |s| && s[..|prefix|] == prefix
  }

  predicate EndsWith(s: string, suffix: string) {
    |suffix| <= |s| && s[|s| - |suffix|..] == suffix
  }

  /** A string containing `sub` contains every prefix of `sub`. */
  lemma ContainsPrefix(s: string, sub: string, k: nat)
    requires Contains(s, sub) && k <= |sub|
    ensures Contains(s, sub[..k])
  {
    var i :| 0 <= i <= |s| - |sub| && OccursAt(s, sub, i);
    assert s[i..i + k] == sub[..k];
    assert OccursAt(s, sub[..k], i);
  }

  /** The index of the first `c` in `s`, or `|s|` when there is none. */
  function IndexOf(s: string, c: char): (i: nat)
    ensures i <= |s|
    ensures i < |s| <==> c in s
    ensures i < |s| ==> s[i] == c
    ensures c !in s[..i]
  {
    if s == [] then 0
    else if s[0] == c then 0
    else 1 + IndexOf(s[1..], c)
  }

  // ---------------------------------------------------------------------------
  // Case mapping
  // ---------------------------------------------------------------------------

  function LowerChar(c: char): char {
    if 'A' <= c <= 'Z' then (c as int + 32) as char else c
  }

  /** `s.lower()` restricted to ASCII letters. */
  function ToLower(s: string): (r: string)
    ensures |r| == |s|
    ensures forall i :: 0 <= i < |s| ==> r[i] == LowerChar(s[i])
  {
    if s == [] then [] else [LowerChar(s[0])] + ToLower(s[1..])
  }

  // ---------------------------------------------------------------------------
  // Decimal rendering
  // ---------------------------------------------------------------------------

  predicate IsDigit(c: char) {
    '0' <= c <= '9'
  }

  function DigitChar(d: nat): char
    requires d < 10
  {
    ('0' as int + d) as char
  }

  function DigitValue(c: char): nat
    requires IsDigit(c)
  {
    c as int - '0' as int
  }

  /** The value of a string of decimal digits. */
  function ParseDigits(s: string): nat
    requires forall i :: 0 <= i < |s| ==> IsDigit(s[i])
  {
    if s == [] then 0 else 10 * ParseDigits(s[..|s| - 1]) + DigitValue(s[|s| - 1])
  }

  /** `str(n)` for a natural number: non-empty digits whose value is `n`. */
  function NatToString(n: nat): (r: string)
    ensures r != []
    ensures forall i :: 0 <= i < |r| ==> IsDigit(r[i])
    ensures ParseDigits(r) == n
    ensures n >= 10 ==> |r| >= 2
  {
    if n < 10 then [DigitChar(n)]
    else
      var r := NatToString(n / 10) + [DigitChar(n % 10)];
      assert r[..|r| - 1] == NatToString(n / 10);
      r
  }

  /** `str(i)` for any integer. */
  function IntToString(i: int): (r: string)
    ensures i >= 0 ==> r == NatToString(i)
    ensures i < 0 ==> r == "-" + NatToString(-i)
  {
    if i < 0 then "-" + NatToString(-i) else NatToString(i)
  }

  /** Python's `f"{i:02d}"`: at least two characters, zero-padded after the sign. */
  function Pad2(i: int): (r: string)
    ensures |r| >= 2
    ensures i >= 0 ==> (forall k :: 0 <= k < |r| ==> IsDigit(r[k])) && ParseDigits(r) == i
    ensures i < 0 ==> r == "-" + NatToString(-i)
  {
    if 0 <= i < 10 then
      var r := ['0', DigitChar(i)];
      assert r[..1] == ['0'];
      assert ParseDigits(r[..1]) == 0 by {
        assert r[..1][..0] == [];
      }
      r
    else IntToString(i)
  }
}
