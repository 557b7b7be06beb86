/**
 * The parts of Python's `str` behaviour that the configuration handling relies on:
 * `isspace`, `strip`, `startswith`, `split()` with no argument, the `in` operator on
 * strings, and `readlines()` / concatenated `write` calls on a text file.
 */
module Text {
  import opened Wrappers

  /**
   * Python's `str.isspace` for a single character: '\t' to '\r', U+001C to ' ', and
   * U+0085, U+00A0, U+1680, U+2000 to U+200A, U+2028, U+2029, U+202F, U+205F, U+3000.
   */
  predicate IsSpace(c: char) {
    if c <= ' ' then
      '\t' <= c <= '\r' || '\U{1c}' <= c
    else if c < '\U{85}' then
      false
    else
      (c == '\U{85}' || c == '\U{a0}' || c == '\U{1680}' || '\U{2000}' <= c <= '\U{200a}' ||
       c == '\U{2028}' || c == '\U{2029}' || c == '\U{202f}' || c == '\U{205f}' || c == '\U{3000}')
  }

  predicate AllSpace(s: string) {
    forall i :: 0 <= i < |s| ==> IsSpace(s[i])
  }

  predicate NoSpace(s: string) {
    forall i :: 0 <= i < |s| ==> !IsSpace(s[i])
  }

  /** `s.lstrip()`: drops the leading whitespace. */
  function LStrip(s: string): (r: string)
    ensures |r| <= |s| && r == s[|s| - |r|..]
    ensures r == [] || !IsSpace(r[0])
  {
    if s != [] && IsSpace(s[0]) then LStrip(s[1..]) else s
  }

  /** What `lstrip` drops is whitespace. */
  lemma {:induction false} LStripDropsSpace(s: string)
    ensures forall i :: 0 <= i < |s| - |LStrip(s)| ==> IsSpace(s[i])
  {
    if s != [] && IsSpace(s[0]) {
      LStripDropsSpace(s[1..]);
      assert forall i :: 1 <= i < |s| - |LStrip(s)| ==> s[i] == s[1..][i - 1];
    }
  }

  /** `s.rstrip()`: drops the trailing whitespace. */
  function RStrip(s: string): (r: string)
    ensures |r| <= |s| && r == s[..|r|]
    ensures r == [] || !IsSpace(r[|r| - 1])
  {
    if s != [] && IsSpace(s[|s| - 1]) then RStrip(s[..|s| - 1]) else s
  }

  /** What `rstrip` drops is whitespace. */
  lemma {:induction false} RStripDropsSpace(s: string)
    ensures forall i :: |RStrip(s)| <= i < |s| ==> IsSpace(s[i])
  {
    if s != [] && IsSpace(s[|s| - 1]) {
      RStripDropsSpace(s[..|s| - 1]);
      assert forall i :: |RStrip(s)| <= i < |s| - 1 ==> s[i] == s[..|s| - 1][i];
    }
  }

  /** `s.strip()`: drops whitespace at both ends. */
  function Strip(s: string): (r: string)
    ensures |s| - |LStrip(s)| + |r| <= |s| && r == s[|s| - |LStrip(s)|..|s| - |LStrip(s)| + |r|]
    ensures r == [] || (!IsSpace(r[0]) && !IsSpace(r[|r| - 1]))
  {
    RStrip(LStrip(s))
  }

  /** `s.startswith(p)`. */
  predicate StartsWith(s: string, p: string) {
    |p| <= |s| && s[..|p|] == p
  }

  /** `p` occurs in `s` starting at index `i`. */
  predicate OccursAt(s: string, p: string, i: int) {
    0 <= i && i + |p| <= |s| && s[i..i + |p|] == p
  }

  /** `p in s` for strings: `p` occurs in `s` as a contiguous substring. */
  predicate Contains(s: string, p: string) {
    exists i | 0 <= i <= |s| - |p| :: OccursAt(s, p, i)
  }

  /** The longest prefix of `s` holding no whitespace. */
  function LeadingWord(s: string): (w: string)
    ensures |w| <= |s| && w == s[..|w|]
    ensures |w| == |s| || IsSpace(s[|w|])
  {
    if s == [] || IsSpace(s[0]) then [] else [s[0]] + LeadingWord(s[1..])
  }

  lemma {:induction false} LeadingWordNoSpace(s: string)
    ensures NoSpace(LeadingWord(s))
  {
    if s != [] && !IsSpace(s[0]) {
      LeadingWordNoSpace(s[1..]);
      var w := LeadingWord(s);
      assert forall i :: 1 <= i < |w| ==> w[i] == LeadingWord(s[1..])[i - 1];
    }
  }

  /**
   * `v` is a word of `s` at index `k`: only whitespace precedes it, and it is a
   * maximal non-empty run of non-whitespace characters.
   */
  ghost predicate FirstWordAt(s: string, k: nat, v: string) {
    v != [] && NoSpace(v) && k + |v| <= |s| && AllSpace(s[..k]) &&
    s[k..k + |v|] == v && (k + |v| == |s| || IsSpace(s[k + |v|]))
  }

  lemma AllSpaceIffStripEmpty(s: string)
    ensures AllSpace(s) <==> LStrip(s) == []
  {
    var t := LStrip(s);
    LStripDropsSpace(s);
    if t != [] {
      assert !IsSpace(s[|s| - |t|]);
    }
  }

  /** `s.split()`: the maximal runs of non-whitespace characters, in order. */
  function Split(s: string): (ws: seq<string>)
    decreases |s|
    ensures ws == [] <==> AllSpace(s)
    ensures ws != [] ==> ws[0] == LeadingWord(LStrip(s))
  {
    var t := LStrip(s);
    AllSpaceIffStripEmpty(s);
    if t == [] then []
    else
      var w := LeadingWord(t);
      assert w != [];
      [w] + Split(t[|w|..])
  }

  /** A leading word that is not empty is a word of its text at index 0. */
  lemma LeadingWordAtStart(t: string)
    requires t != [] && !IsSpace(t[0])
    ensures FirstWordAt(t, 0, LeadingWord(t))
  {
    LeadingWordNoSpace(t);
  }

  /** Whitespace put in front of a text moves its first word along. */
  lemma FirstWordAfterSpace(ws: string, t: string, v: string)
    requires AllSpace(ws) && FirstWordAt(t, 0, v)
    ensures FirstWordAt(ws + t, |ws|, v)
  {
    var s := ws + t;
    assert s[..|ws|] == ws;
    assert s[|ws|..|ws| + |v|] == t[..|v|];
    if |ws| + |v| < |s| {
      assert s[|ws| + |v|] == t[|v|];
    }
  }

  /** The first word `split()` finds is preceded by whitespace only and ends at whitespace or at the end. */
  lemma FirstWordShape(s: string, v: string)
    requires !AllSpace(s) && v == LeadingWord(LStrip(s))
    ensures FirstWordAt(s, |s| - |LStrip(s)|, v)
  {
    var t := LStrip(s);
    var k := |s| - |t|;
    AllSpaceIffStripEmpty(s);
    LeadingWordAtStart(t);
    LStripDropsSpace(s);
    assert AllSpace(s[..k]);
    PrefixThenRest(s, k, t);
    FirstWordAfterSpace(s[..k], t, v);
  }

  /** The first word of `s.strip().split()` is the first word of `s`, in place. */
  lemma FirstWordOfStripped(s: string, v: string)
    requires Split(Strip(s)) != [] && v == Split(Strip(s))[0]
    ensures FirstWordAt(s, |s| - |LStrip(s)|, v)
  {
    SplitOfStrip(s);
    assert v == LeadingWord(LStrip(s)) by {
      assert Split(s) != [];
    }
    FirstWordShape(s, v);
  }

  lemma PrefixThenRest(s: string, k: nat, t: string)
    requires k <= |s| && t == s[k..]
    ensures s[..k] + t == s
  {
  }

  /** Stripping first does not change the first word `split()` finds, nor whether there is one. */
  lemma {:induction false} SplitOfStrip(s: string)
    ensures Split(Strip(s)) == [] <==> Split(s) == []
    ensures Split(s) != [] ==> Split(Strip(s))[0] == Split(s)[0]
  {
    var t := LStrip(s);
    var u := RStrip(t);
    assert Strip(s) == u;
    var a := |s| - |t|;
    AllSpaceIffStripEmpty(s);
    if AllSpace(s) {
      assert u == [];
    } else {
      var w := LeadingWord(t);
      assert |w| <= |u| by { RStripKeepsLastWord(t); }
      assert u != [] && !IsSpace(u[0]) by { assert u[0] == t[0]; }
      assert LStrip(u) == u;
      LeadingWordOfPrefix(t, |u|);
      assert u == t[..|u|];
      assert !AllSpace(u);
    }
  }

  /** `rstrip` removes whitespace only: it keeps every character up to the last non-whitespace one. */
  lemma RStripKeeps(t: string, n: nat)
    requires 0 < n <= |t| && !IsSpace(t[n - 1])
    ensures n <= |RStrip(t)|
  {
    RStripDropsSpace(t);
  }

  lemma RStripKeepsLastWord(t: string)
    requires t != [] && !IsSpace(t[0])
    ensures |LeadingWord(t)| <= |RStrip(t)|
  {
    var w := LeadingWord(t);
    LeadingWordNoSpace(t);
    assert t[|w| - 1] == w[|w| - 1];
    RStripKeeps(t, |w|);
  }

  /** Leading whitespace is all that `lstrip` removes. */
  lemma {:induction false} LStripAfterSpace(ws: string, s: string)
    requires AllSpace(ws)
    requires s == [] || !IsSpace(s[0])
    ensures LStrip(ws + s) == s
  {
    if ws == [] {
      assert ws + s == s;
    } else {
      assert (ws + s)[1..] == ws[1..] + s;
      LStripAfterSpace(ws[1..], s);
    }
  }

  /**
   * For a prefix that ends in a non-whitespace character, `s.strip().startswith(p)`
   * depends on the leading whitespace only.
   */
  lemma StripStartsWith(s: string, p: string)
    requires p != [] && !IsSpace(p[|p| - 1])
    ensures StartsWith(Strip(s), p) <==> StartsWith(LStrip(s), p)
  {
    var t := LStrip(s);
    var u := RStrip(t);
    assert Strip(s) == u;
    if StartsWith(t, p) {
      assert t[|p| - 1] == p[|p| - 1];
      RStripKeeps(t, |p|);
      assert u[..|p|] == t[..|p|];
    }
    if StartsWith(u, p) {
      assert t[..|p|] == u[..|p|];
    }
  }

  /** An indented line that starts with `p` after its indentation starts with `p` once stripped. */
  lemma IndentedStartsWith(indent: string, p: string, rest: string)
    requires AllSpace(indent)
    requires p != [] && !IsSpace(p[0]) && !IsSpace(p[|p| - 1])
    ensures StartsWith(Strip(indent + p + rest), p)
  {
    var s := indent + p + rest;
    assert s == indent + (p + rest);
    LStripAfterSpace(indent, p + rest);
    assert (p + rest)[..|p|] == p;
    StripStartsWith(s, p);
  }

  /** A string without leading whitespace is left alone by `lstrip`. */
  lemma LStripNoLeadingSpace(s: string)
    requires s == [] || !IsSpace(s[0])
    ensures LStrip(s) == s
  {
  }

  /** A string that starts with `p`, itself free of whitespace at both ends, still does once stripped. */
  lemma StrippedStartsWith(s: string, p: string)
    requires StartsWith(s, p)
    requires p != [] && !IsSpace(p[0]) && !IsSpace(p[|p| - 1])
    ensures StartsWith(Strip(s), p)
  {
    assert s[0] == p[0];
    LStripNoLeadingSpace(s);
    StripStartsWith(s, p);
  }

  /** Cutting a string after its first word keeps that word. */
  lemma {:induction false} LeadingWordOfPrefix(t: string, n: nat)
    requires |LeadingWord(t)| <= n <= |t|
    ensures LeadingWord(t[..n]) == LeadingWord(t)
  {
    if t != [] && !IsSpace(t[0]) {
      assert t[..n][1..] == t[1..][..n - 1];
      LeadingWordOfPrefix(t[1..], n - 1);
    }
  }

  // ---------------------------------------------------------------------------
  // Lines, as `readlines()` yields them and as successive `write` calls produce them.

  /** Length of the first line of `s`, counting its '\n' if it has one. */
  function FirstLineLength(s: string): (n: nat)
    requires s != []
    ensures 0 < n <= |s|
    ensures forall i :: 0 <= i < n - 1 ==> s[i] != '\n'
    ensures n < |s| ==> s[n - 1] == '\n'
  {
    if s[0] == '\n' || |s| == 1 then 1 else 1 + FirstLineLength(s[1..])
  }

  /** A line as `readlines()` yields it: non-empty, with '\n' at most as its last character. */
  predicate IsLine(l: string) {
    l != [] && forall i :: 0 <= i < |l| - 1 ==> l[i] != '\n'
  }

  predicate EndsWithNewline(l: string) {
    l != [] && l[|l| - 1] == '\n'
  }

  /** Every element is a line and every line but the last ends with '\n'. */
  predicate WellFormedLines(ls: seq<string>) {
    (forall i :: 0 <= i < |ls| ==> IsLine(ls[i])) &&
    (forall i :: 0 <= i < |ls| - 1 ==> EndsWithNewline(ls[i]))
  }

  /** Writing the lines one after another. */
  function Join(ls: seq<string>): string {
    if ls == [] then [] else ls[0] + Join(ls[1..])
  }

  /** `f.readlines()`: the text cut after every '\n'. */
  function SplitLines(s: string): (ls: seq<string>)
    decreases |s|
    ensures Join(ls) == s
    ensures WellFormedLines(ls)
  {
    if s == [] then []
    else
      var n := FirstLineLength(s);
      var rest := SplitLines(s[n..]);
      assert IsLine(s[..n]) && (EndsWithNewline(s[..n]) || rest == []);
      ConsLine(s[..n], rest);
      PrefixThenRest(s, n, s[n..]);
      [s[..n]] + rest
  }

  /** A line in front of well-formed lines: well-formed when it ends with '\n' or stands alone. */
  lemma ConsLine(l: string, rest: seq<string>)
    requires IsLine(l) && (EndsWithNewline(l) || rest == []) && WellFormedLines(rest)
    ensures WellFormedLines([l] + rest)
    ensures Join([l] + rest) == l + Join(rest)
  {
    assert ([l] + rest)[1..] == rest;
    assert forall i :: 1 <= i < |[l] + rest| ==> ([l] + rest)[i] == rest[i - 1];
  }

  lemma {:induction false} JoinAppend(ls: seq<string>, l: string)
    ensures Join(ls + [l]) == Join(ls) + l
  {
    if ls == [] {
      assert [l][1..] == [];
    } else {
      assert (ls + [l])[1..] == ls[1..] + [l];
      JoinAppend(ls[1..], l);
    }
  }

  /** Writing one more line extends what was written by that line. */
  lemma JoinPrefixStep(ls: seq<string>, i: nat)
    requires i < |ls|
    ensures Join(ls[..i + 1]) == Join(ls[..i]) + ls[i]
  {
    assert ls[..i + 1] == ls[..i] + [ls[i]];
    JoinAppend(ls[..i], ls[i]);
  }

  lemma {:induction false} FirstLineLengthOfLine(l: string, rest: string)
    requires IsLine(l)
    requires EndsWithNewline(l) || rest == []
    ensures FirstLineLength(l + rest) == |l|
  {
    if |l| > 1 {
      assert (l + rest)[1..] == l[1..] + rest;
      FirstLineLengthOfLine(l[1..], rest);
    }
  }

  /** Reading back what was written line by line gives the same lines. */
  lemma {:induction false} SplitLinesOfJoin(ls: seq<string>)
    requires WellFormedLines(ls)
    ensures SplitLines(Join(ls)) == ls
  {
    if ls != [] {
      var rest := Join(ls[1..]);
      assert rest == [] || EndsWithNewline(ls[0]) by {
        if |ls| == 1 { assert ls[1..] == []; }
      }
      FirstLineLengthOfLine(ls[0], rest);
      assert (ls[0] + rest)[|ls[0]|..] == rest;
      assert (ls[0] + rest)[..|ls[0]|] == ls[0];
      SplitLinesOfJoin(ls[1..]);
    }
  }

  /** A pattern without '\n' occurs in joined lines only if it occurs in one of them. */
  lemma {:induction false} ContainsJoin(ls: seq<string>, p: string)
    requires forall i :: 0 <= i < |ls| - 1 ==> EndsWithNewline(ls[i])
    requires '\n' !in p
    requires forall i :: 0 <= i < |ls| ==> !Contains(ls[i], p)
    requires p != []
    ensures !Contains(Join(ls), p)
  {
    if ls != [] {
      ContainsJoin(ls[1..], p);
      var l := ls[0];
      if |ls| == 1 {
        assert ls[1..] == [];
        assert Join(ls) == l;
      } else {
        ContainsAcross(l[..|l| - 1], '\n', Join(ls[1..]), p);
        assert l[..|l| - 1] + ['\n'] == l;
        assert !Contains(l[..|l| - 1], p) by { ContainsPrefix(l, |l| - 1, p); }
      }
    }
  }

  /** An occurrence in a prefix is an occurrence in the whole string. */
  lemma ContainsPrefix(s: string, n: nat, p: string)
    requires n <= |s|
    ensures Contains(s[..n], p) ==> Contains(s, p)
  {
    if Contains(s[..n], p) {
      var i :| 0 <= i <= n - |p| && OccursAt(s[..n], p, i);
      assert s[i..i + |p|] == s[..n][i..i + |p|];
      assert OccursAt(s, p, i);
    }
  }

  /** A slice that lies within the second part of a concatenation is a slice of that part. */
  lemma SliceInSuffix(a: string, b: string, i: nat, n: nat)
    requires |a| <= i && i + n <= |a| + |b|
    ensures b[i - |a|..i - |a| + n] == (a + b)[i..i + n]
  {
    var u, v := b[i - |a|..i - |a| + n], (a + b)[i..i + n];
    assert forall k :: 0 <= k < n ==> u[k] == v[k];
  }

  /**
   * A character that does not occur in `p` separates: an occurrence of `p` in
   * `x + [c] + y` lies within `x` or within `y`.
   */
  lemma ContainsAcross(x: string, c: char, y: string, p: string)
    requires c !in p
    requires p != []
    ensures Contains(x + [c] + y, p) ==> Contains(x, p) || Contains(y, p)
  {
    var s := x + [c] + y;
    if Contains(s, p) {
      var i :| 0 <= i <= |s| - |p| && OccursAt(s, p, i);
      assert forall j :: i <= j < i + |p| ==> s[j] == p[j - i] != c;
      assert s[|x|] == c;
      if i + |p| <= |x| {
        assert x[i..i + |p|] == s[i..i + |p|];
        assert OccursAt(x, p, i);
      } else if i > |x| {
        var j := i - |x| - 1;
        SliceInSuffix(x + [c], y, i, |p|);
        assert OccursAt(y, p, j);
      } else {
        assert false;
      }
    }
  }

  /** An occurrence in either part is an occurrence in the concatenation. */
  lemma ContainsInConcat(a: string, b: string, p: string)
    ensures Contains(a, p) || Contains(b, p) ==> Contains(a + b, p)
  {
    if Contains(a, p) {
      var i :| 0 <= i <= |a| - |p| && OccursAt(a, p, i);
      assert (a + b)[i..i + |p|] == a[i..i + |p|];
      assert OccursAt(a + b, p, i);
    } else if Contains(b, p) {
      var i :| 0 <= i <= |b| - |p| && OccursAt(b, p, i);
      assert (a + b)[|a| + i..|a| + i + |p|] == b[i..i + |p|];
      assert OccursAt(a + b, p, |a| + i);
    }
  }

  /** An occurrence in one line is an occurrence in the joined text. */
  lemma {:induction false} ContainsInJoin(ls: seq<string>, k: nat, p: string)
    requires k < |ls| && Contains(ls[k], p)
    ensures Contains(Join(ls), p)
    decreases k
  {
    if k == 0 {
      ContainsInConcat(ls[0], Join(ls[1..]), p);
    } else {
      ContainsInJoin(ls[1..], k - 1, p);
      ContainsInConcat(ls[0], Join(ls[1..]), p);
    }
  }

  /** A string missing the first character of `p` does not contain `p`. */
  lemma MissingHead(s: string, p: string)
    requires p != [] && p[0] !in s
    ensures !Contains(s, p)
  {
  }
}
