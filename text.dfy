/**
 * The Python string built-ins the modelled code relies on, written out over `seq<char>`:
 * `str.isspace`, `rstrip`/`lstrip`/`strip`, `startswith`/`endswith`, `in`, `replace`,
 * `split(sep, 1)`, `split()` and the ASCII part of `upper`.
 */
module Text {
  import opened Wrappers

  /** `str.isspace()` for one character (CPython's whitespace table). */
  predicate IsSpace(c: char) {
    var n := c as int;
    (9 <= n <= 13) || (28 <= n <= 32) || n == 0x85 || n == 0xA0 || n == 0x1680
    || (0x2000 <= n <= 0x200A) || n == 0x2028 || n == 0x2029 || n == 0x202F
    || n == 0x205F || n == 0x3000
  }

  predicate NoSpace(s: string) {
    forall i :: 0 <= i < |s| ==> !IsSpace(s[i])
  }

  predicate StartsWith(s: string, prefix: string) {
    |prefix| <= |s| && s[..|prefix|] == prefix
  }

  predicate EndsWith(s: string, suffix: string) {
    |suffix| <= |s| && s[|s| - |suffix|..] == suffix
  }

  /** `t` occurs in `s` starting at index `i`. */
  predicate OccursAt(s: string, t: string, i: int) {
    0 <= i <= |s| - |t| && s[i..i + |t|] == t
  }

  /** Python's `t in s` on two strings. */
  predicate Contains(s: string, t: string) {
    exists i :: 0 <= i <= |s| && OccursAt(s, t, i)
  }

  /** A string cannot contain `t` when `t` holds a character that `s` lacks. */
  lemma AbsentCharNotContained(s: string, t: string, c: char)
    requires c in t && c !in s
    ensures !Contains(s, t)
  {
    var j :| 0 <= j < |t| && t[j] == c;
    forall i | 0 <= i <= |s|
      ensures !OccursAt(s, t, i)
    {
      if i <= |s| - |t| {
        assert s[i..i + |t|][j] == s[i + j] != t[j];
      }
    }
  }

  /** `str.rstrip()`: drops every trailing whitespace character and nothing else. */
  function RStrip(s: string): (r: string)
    ensures StartsWith(s, r)
    ensures r == [] || !IsSpace(r[|r| - 1])
    ensures forall i :: |r| <= i < |s| ==> IsSpace(s[i])
  {
    if s == [] || !IsSpace(s[|s| - 1]) then s else RStrip(s[..|s| - 1])
  }

  /** `str.lstrip()`: drops every leading whitespace character and nothing else. */
  function LStrip(s: string): (r: string)
    ensures |r| <= |s| && r == s[|s| - |r|..]
    ensures r == [] || !IsSpace(r[0])
    ensures forall i :: 0 <= i < |s| - |r| ==> IsSpace(s[i])
  {
    if s != [] && IsSpace(s[0]) then
      var r := LStrip(s[1..]);
      assert s[1..][|s| - 1 - |r|..] == s[|s| - |r|..];
      assert forall i :: 1 <= i < |s| - |r| ==> s[i] == s[1..][i - 1];
      r
    else s
  }

  /** A string whose first character is not whitespace is its own `lstrip()`. */
  lemma LStripKeeps(s: string)
    requires s == [] || !IsSpace(s[0])
    ensures LStrip(s) == s
  {
  }

  /** `s.replace(pattern, replacement)`: every non-overlapping occurrence, left to right. */
  function ReplaceAll(s: string, pattern: string, replacement: string): string
    requires pattern != []
    decreases |s|
  {
    if |s| < |pattern| then s
    else if s[..|pattern|] == pattern then replacement + ReplaceAll(s[|pattern|..], pattern, replacement)
    else [s[0]] + ReplaceAll(s[1..], pattern, replacement)
  }

  /** Replacing a pattern that does not occur leaves the string as it is. */
  lemma {:induction false} ReplaceAbsent(s: string, pattern: string, replacement: string)
    requires pattern != [] && !Contains(s, pattern)
    ensures ReplaceAll(s, pattern, replacement) == s
    decreases |s|
  {
    if |s| >= |pattern| {
      assert !OccursAt(s, pattern, 0);
      forall i | 0 <= i <= |s[1..]|
        ensures !OccursAt(s[1..], pattern, i)
      {
        assert !OccursAt(s, pattern, i + 1);
        if i <= |s[1..]| - |pattern| {
          assert s[1..][i..i + |pattern|] == s[i + 1..i + 1 + |pattern|];
        }
      }
      ReplaceAbsent(s[1..], pattern, replacement);
      assert [s[0]] + s[1..] == s;
    }
  }

  /** A replacement keeps the first character unless the pattern starts right there. */
  lemma ReplaceKeepsFirst(s: string, pattern: string, replacement: string)
    requires pattern != [] && s != [] && s[0] != pattern[0]
    ensures ReplaceAll(s, pattern, replacement) != []
    ensures ReplaceAll(s, pattern, replacement)[0] == s[0]
  {
    if |s| >= |pattern| {
      assert s[..|pattern|][0] == s[0];
    }
  }

  /** The first index of `c` in `s`, if any. */
  function IndexOf(s: string, c: char): (r: Option<nat>)
    ensures r.None? <==> c !in s
    ensures r.Some? ==> r.value < |s| && s[r.value] == c && c !in s[..r.value]
  {
    if s == [] then None
    else if s[0] == c then Some(0)
    else match IndexOf(s[1..], c)
      case None => None
      case Some(i) => Some(i + 1)
  }

  /** `s.split(sep, 1)` when it yields two pieces; `None` when `sep` does not occur. */
  function SplitOnce(s: string, sep: char): (r: Option<(string, string)>)
    ensures r.None? <==> sep !in s
    ensures r.Some? ==> r.value.0 + [sep] + r.value.1 == s && sep !in r.value.0
  {
    match IndexOf(s, sep)
    case None => None
    case Some(i) =>
      assert s[..i] + [sep] + s[i + 1..] == s;
      Some((s[..i], s[i + 1..]))
  }

  /** Splitting `a + [c] + b` at its first `c` gives back `a` and `b` when `a` has no `c`. */
  lemma SplitAtFirst(a: string, b: string, c: char)
    requires c !in a
    ensures SplitOnce(a + [c] + b, c) == Some((a, b))
  {
    var s := a + [c] + b;
    assert s[|a|] == c && s[..|a|] == a;
    assert s[|a| + 1..] == b;
  }

  /** `s.split(sep)[0]`: the text before the first occurrence of `sep` (all of `s` without one). */
  function Before(s: string, sep: string): (r: string)
    requires sep != []
    ensures StartsWith(s, r)
    ensures r == s || StartsWith(s[|r|..], sep)
    ensures forall i :: 0 <= i < |r| ==> !StartsWith(s[i..], sep)
    decreases |s|
  {
    if |s| < |sep| then s
    else if s[..|sep|] == sep then []
    else
      var rest := Before(s[1..], sep);
      assert forall i :: 1 <= i <= |rest| ==> s[i..] == s[1..][i - 1..];
      [s[0]] + rest
  }

  /** Without an occurrence of `sep`, `split(sep)[0]` is the whole string. */
  lemma BeforeAbsent(s: string, sep: string)
    requires sep != [] && !Contains(s, sep)
    ensures Before(s, sep) == s
  {
    var r := Before(s, sep);
    assert !OccursAt(s, sep, |r|);
  }

  /** `(p + c).split(c)[0]` is `p` when `p` has no `c`. */
  lemma {:induction false} BeforeClosing(p: string, c: char)
    requires c !in p
    ensures Before(p + [c], [c]) == p
  {
    var s := p + [c];
    if p != [] {
      assert s[..1] == [p[0]] && s[1..] == p[1..] + [c];
      BeforeClosing(p[1..], c);
      assert [p[0]] + p[1..] == p;
    }
  }

  function TrimEnd(s: string, c: char): (r: string)
    ensures StartsWith(s, r) && (r == [] || r[|r| - 1] != c)
  {
    if s != [] && s[|s| - 1] == c then TrimEnd(s[..|s| - 1], c) else s
  }

  function TrimStart(s: string, c: char): (r: string)
    ensures |r| <= |s| && r == s[|s| - |r|..] && (r == [] || r[0] != c)
  {
    if s != [] && s[0] == c then TrimStart(s[1..], c) else s
  }

  /** `s.strip(c)` for a single character `c`. */
  function Strip(s: string, c: char): string {
    TrimStart(TrimEnd(s, c), c)
  }

  /** Stripping double quotes from a quoted text without inner quotes gives the text. */
  lemma StripQuoted(p: string)
    requires '"' !in p
    ensures Strip("\"" + p + "\"", '"') == p
  {
    var q := "\"" + p + "\"";
    assert q[..|q| - 1] == "\"" + p;
    if p == [] {
      assert ("\"" + p)[..0] == [];
    } else {
      assert ("\"" + p)[|p|] == p[|p| - 1] != '"';
      assert TrimEnd(q, '"') == "\"" + p;
      assert ("\"" + p)[1..] == p;
      assert p[0] != '"';
      assert TrimStart("\"" + p, '"') == TrimStart(p, '"') == p;
    }
  }

  /** Stripping a character that neither end carries changes nothing. */
  lemma StripKeeps(s: string, c: char)
    requires s == [] || (s[0] != c && s[|s| - 1] != c)
    ensures Strip(s, c) == s
  {
  }

  /** The longest prefix of `s` without whitespace. */
  function Word(s: string): (w: string)
    ensures |w| <= |s| && w == s[..|w|] && NoSpace(w)
    ensures w == s || IsSpace(s[|w|])
    ensures s != [] && !IsSpace(s[0]) ==> w != []
  {
    if s == [] || IsSpace(s[0]) then [] else [s[0]] + Word(s[1..])
  }

  /** The first word of `a + b` is `a` when `a` has no whitespace and `b` starts with some. */
  lemma {:induction false} WordOf(a: string, b: string)
    requires NoSpace(a) && (b == [] || IsSpace(b[0]))
    ensures Word(a + b) == a
  {
    if a != [] {
      assert (a + b)[0] == a[0] && (a + b)[1..] == a[1..] + b;
      WordOf(a[1..], b);
    } else {
      assert a + b == b;
    }
  }

  /** Left-stripping drops a leading run of whitespace and stops at the first other character. */
  lemma {:induction false} LStripSpaces(a: string, x: string)
    requires forall i :: 0 <= i < |a| ==> IsSpace(a[i])
    requires x == [] || !IsSpace(x[0])
    ensures LStrip(a + x) == x
  {
    if a != [] {
      assert (a + x)[0] == a[0] && (a + x)[1..] == a[1..] + x;
      LStripSpaces(a[1..], x);
    } else {
      assert a + x == x;
    }
  }

  /** A string whose last character is not whitespace is its own `rstrip()`. */
  lemma RStripKeeps(s: string)
    requires s == [] || !IsSpace(s[|s| - 1])
    ensures RStrip(s) == s
  {
  }

  /** `s.split()`: the maximal runs of non-whitespace characters, in order. */
  function Tokens(s: string): seq<string>
    decreases |s|
  {
    var t := LStrip(s);
    if t == [] then [] else
      var w := Word(t);
      [w] + Tokens(t[|w|..])
  }

  /** A word followed by whitespace or nothing is the first token. */
  lemma TokensOfWordThen(w: string, rest: string)
    requires w != [] && NoSpace(w) && (rest == [] || IsSpace(rest[0]))
    ensures Tokens(w + rest) == [w] + Tokens(rest)
  {
    LStripKeeps(w + rest);
    WordOf(w, rest);
    assert (w + rest)[|w|..] == rest;
  }

  /** A single word after one space is the only token. */
  lemma TokensOfSpacedWord(v: string)
    requires v != [] && NoSpace(v)
    ensures Tokens(" " + v) == [v]
  {
    assert LStrip(" " + v) == v by {
      LStripSpaces(" ", v);
    }
    assert Word(v) == v by {
      assert v + [] == v;
      WordOf(v, []);
    }
    assert v[|v|..] == [];
    assert Tokens([]) == [];
  }

  /** Two words separated by one space are the two tokens. */
  lemma TokensOfTwoWords(w: string, v: string)
    requires w != [] && NoSpace(w) && v != [] && NoSpace(v)
    ensures Tokens(w + (" " + v)) == [w, v]
  {
    var rest := " " + v;
    assert Tokens(rest) == [v] by {
      TokensOfSpacedWord(v);
    }
    assert Tokens(w + rest) == [w] + Tokens(rest) by {
      assert rest[0] == ' ';
      TokensOfWordThen(w, rest);
    }
    PairConcat(w, v);
  }

  lemma PairConcat<T>(a: T, b: T)
    ensures [a] + [b] == [a, b]
  {
  }

  function UpperChar(c: char): char {
    if 'a' <= c <= 'z' then (c as int - 32) as char else c
  }

  /** `str.upper()` restricted to ASCII: `a`..`z` become `A`..`Z`, every other character stays. */
  function Upper(s: string): (r: string)
    ensures |r| == |s|
    ensures forall i :: 0 <= i < |s| ==> r[i] == UpperChar(s[i])
  {
    if s == [] then [] else [UpperChar(s[0])] + Upper(s[1..])
  }

  /** Upper-casing distributes over concatenation. */
  lemma UpperConcat(a: string, b: string)
    ensures Upper(a + b) == Upper(a) + Upper(b)
  {
    assert forall i :: 0 <= i < |a + b| ==> Upper(a + b)[i] == (Upper(a) + Upper(b))[i];
  }

  /** Upper-casing twice is upper-casing once. */
  lemma UpperIdempotent(s: string)
    ensures Upper(Upper(s)) == Upper(s)
  {
    assert forall i :: 0 <= i < |s| ==> Upper(Upper(s))[i] == Upper(s)[i];
  }
}
