/**
 * Python's `string.Template.substitute` with a mapping, as the provisioning script uses it
 * to fill the configuration text. The delimiter is '$'; each '$' starts one of, in this order
 * of preference: `$$` (an escaped '$'), `$name`, `${name}`, or an invalid placeholder. A name
 * is an ASCII letter or '_' followed by ASCII letters, digits and '_' (the identifier pattern
 * is case-insensitive). The text is scanned left to right and the first problem raises:
 * `KeyError` for a name the mapping lacks, `ValueError` for an invalid placeholder.
 */
module TemplateSubst {
  import opened Wrappers

  predicate IsIdStart(c: char) {
    c == '_' || 'a' <= c <= 'z' || 'A' <= c <= 'Z'
  }

  predicate IsIdChar(c: char) {
    IsIdStart(c) || '0' <= c <= '9'
  }

  /** The length of the longest prefix of `s` made of identifier characters. */
  function IdRun(s: string): (n: nat)
    ensures n <= |s|
    ensures n == |s| || !IsIdChar(s[n])
  {
    if s != [] && IsIdChar(s[0]) then 1 + IdRun(s[1..]) else 0
  }

  /** The run is made of identifier characters. */
  lemma {:induction false} IdRunChars(s: string)
    ensures forall i :: 0 <= i < IdRun(s) ==> IsIdChar(s[i])
  {
    if s != [] && IsIdChar(s[0]) {
      IdRunChars(s[1..]);
    }
  }

  /** `KeyError(name)`, or the `ValueError` of an invalid placeholder. */
  datatype SubstError = MissingKey(name: string) | InvalidPlaceholder

  /** Two results in sequence: the first error, or both texts joined. */
  function Then(r1: Result<string, SubstError>, r2: Result<string, SubstError>): (r: Result<string, SubstError>)
    ensures r.Ok? <==> r1.Ok? && r2.Ok?
    ensures r.Ok? ==> r.value == r1.value + r2.value
    ensures r.Err? ==> r == (if r1.Err? then r1 else r2)
    ensures r1 == Ok([]) ==> r == r2
  {
    if r1.Err? then r1
    else if r2.Err? then r2
    else
      assert r1.value == [] ==> r1.value + r2.value == r2.value;
      Ok(r1.value + r2.value)
  }

  lemma ThenAssociative(r1: Result<string, SubstError>, r2: Result<string, SubstError>, r3: Result<string, SubstError>)
    ensures Then(Then(r1, r2), r3) == Then(r1, Then(r2, r3))
  {
    if r1.Ok? && r2.Ok? && r3.Ok? {
      assert (r1.value + r2.value) + r3.value == r1.value + (r2.value + r3.value);
    }
  }

  /** An identifier: a letter or '_', then letters, digits and '_'. */
  predicate IsName(s: string) {
    s != [] && IsIdStart(s[0]) && forall i :: 0 <= i < |s| ==> IsIdChar(s[i])
  }

  /** What a '$' starts; `width` is how many characters of the template a placeholder takes, '$' included. */
  datatype Placeholder = Escaped | Named(name: string, width: nat) | Invalid

  /** Which alternative of the template pattern matches at a '$', tried in the pattern's order. */
  function Classify(t: string): (p: Placeholder)
    requires t != [] && t[0] == '$'
    ensures p.Escaped? ==> |t| >= 2 && t[1] == '$'
    ensures p.Named? ==> 2 <= p.width <= |t|
  {
    if |t| >= 2 && t[1] == '$' then Escaped
    else if |t| >= 2 && IsIdStart(t[1]) then
      var n := IdRun(t[1..]);
      Named(t[1..1 + n], 1 + n)
    else if |t| >= 3 && t[1] == '{' && IsIdStart(t[2]) && 2 + IdRun(t[2..]) < |t| && t[2 + IdRun(t[2..])] == '}' then
      var n := IdRun(t[2..]);
      Named(t[2..2 + n], 3 + n)
    else Invalid
  }

  /** A named placeholder is `$name` or `${name}` with `name` an identifier, as long as the pattern allows. */
  lemma ClassifyNamed(t: string)
    requires t != [] && t[0] == '$' && Classify(t).Named?
    ensures var p := Classify(t);
      IsName(p.name) &&
      ((p.width == 1 + |p.name| && t[1..p.width] == p.name && (p.width == |t| || !IsIdChar(t[p.width]))) ||
       (p.width == 3 + |p.name| && t[1] == '{' && t[2..2 + |p.name|] == p.name && t[p.width - 1] == '}'))
  {
    if t[1] != '$' && IsIdStart(t[1]) {
      var n := IdRun(t[1..]);
      IdRunChars(t[1..]);
      assert forall i :: 0 <= i < n ==> t[1..1 + n][i] == t[1..][i];
    } else {
      var n := IdRun(t[2..]);
      IdRunChars(t[2..]);
      assert forall i :: 0 <= i < n ==> t[2..2 + n][i] == t[2..][i];
    }
  }

  /** What the text at the head of `t` is replaced by, and how many characters it takes. */
  function Step(t: string, m: map<string, string>): (s: (Result<string, SubstError>, nat))
    requires t != []
    ensures 1 <= s.1 <= |t|
  {
    if t[0] != '$' then (Ok([t[0]]), 1)
    else
      match Classify(t)
      case Escaped => (Ok("$"), 2)
      case Named(name, width) => (if name in m then Ok(m[name]) else Err(MissingKey(name)), width)
      case Invalid => (Err(InvalidPlaceholder), 1)
  }

  /** `Template(t).substitute(m)`: each step's replacement in turn, up to the first error. */
  function Substitute(t: string, m: map<string, string>): (r: Result<string, SubstError>)
    decreases |t|
  {
    if t == [] then Ok([])
    else
      var s := Step(t, m);
      Then(s.0, Substitute(t[s.1..], m))
  }

  /** Text without '$' comes back unchanged, whatever the mapping. */
  lemma {:induction false} NoDollarUnchanged(t: string, m: map<string, string>)
    requires '$' !in t
    ensures Substitute(t, m) == Ok(t)
    decreases |t|
  {
    if t != [] {
      SubstHead(t, m);
      NoDollarUnchanged(t[1..], m);
      assert [t[0]] + t[1..] == t;
    }
  }

  /** The identifier run stops at the same place when text follows a character that cannot be in a name. */
  lemma {:induction false} IdRunAppend(s: string, b: string)
    requires s != [] && !IsIdChar(s[|s| - 1])
    ensures IdRun(s + b) == IdRun(s)
  {
    if IsIdChar(s[0]) {
      assert (s + b)[1..] == s[1..] + b;
      IdRunAppend(s[1..], b);
    }
  }

  /** The run of a name followed by a non-identifier character is the name. */
  lemma {:induction false} IdRunOfName(name: string, c: char, post: string)
    requires forall i :: 0 <= i < |name| ==> IsIdChar(name[i])
    requires !IsIdChar(c)
    ensures IdRun(name + [c] + post) == |name|
  {
    if name != [] {
      assert (name + [c] + post)[1..] == name[1..] + [c] + post;
      IdRunOfName(name[1..], c, post);
    }
  }

  /** What a '$' starts does not depend on text beyond the end of its line. */
  lemma ClassifyAppend(a: string, b: string)
    requires a != [] && a[0] == '$' && a[|a| - 1] == '\n'
    ensures Classify(a + b) == Classify(a)
  {
    assert (a + b)[0] == '$' && (a + b)[1] == a[1];
    if a[1] != '$' && IsIdStart(a[1]) {
      ClassifyAppendNamed(a, b);
    } else if a[1] == '{' {
      ClassifyAppendBraced(a, b);
    }
  }

  lemma ClassifyAppendNamed(a: string, b: string)
    requires a != [] && a[0] == '$' && a[|a| - 1] == '\n' && a[1] != '$' && IsIdStart(a[1])
    ensures Classify(a + b) == Classify(a)
  {
    var t := a + b;
    assert t[1..] == a[1..] + b;
    IdRunAppend(a[1..], b);
    var n := IdRun(a[1..]);
    assert Classify(a) == Named(a[1..1 + n], 1 + n);
    assert t[1..1 + n] == a[1..1 + n];
  }

  lemma ClassifyAppendBraced(a: string, b: string)
    requires a != [] && a[0] == '$' && a[|a| - 1] == '\n' && a[1] == '{'
    ensures Classify(a + b) == Classify(a)
  {
    var t := a + b;
    assert t[1] == '{' && t[2] == a[2];
    if IsIdStart(a[2]) {
      assert t[2..] == a[2..] + b;
      IdRunAppend(a[2..], b);
      IdRunChars(a[2..]);
      var n := IdRun(a[2..]);
      assert 2 + n < |a|;
      assert t[2 + n] == a[2 + n];
      assert t[2..2 + n] == a[2..2 + n];
    }
  }

  /** One step of the substitution, as its definition reads. */
  lemma SubstHead(t: string, m: map<string, string>)
    requires t != []
    ensures Substitute(t, m) == Then(Step(t, m).0, Substitute(t[Step(t, m).1..], m))
  {
  }

  /** A step inside a text that ends with a newline does not look past it. */
  lemma StepAppend(a: string, b: string, m: map<string, string>)
    requires a != [] && a[|a| - 1] == '\n'
    ensures Step(a + b, m) == Step(a, m)
  {
    assert (a + b)[0] == a[0];
    if a[0] == '$' {
      ClassifyAppend(a, b);
    }
  }

  /**
   * Substitution works line by line: a text that ends with a newline holds no placeholder that
   * reaches past it, so substituting it and what follows is substituting each in turn.
   */
  lemma {:induction false} SubstAppend(a: string, b: string, m: map<string, string>)
    requires a == [] || a[|a| - 1] == '\n'
    ensures Substitute(a + b, m) == Then(Substitute(a, m), Substitute(b, m))
    decreases |a|
  {
    var t := a + b;
    if a == [] {
      assert t == b;
    } else {
      StepAppend(a, b, m);
      var s := Step(a, m);
      var out, w := s.0, s.1;
      var rest := a[w..];
      var tail := Substitute(b, m);
      assert t[w..] == rest + b;
      SubstAppend(rest, b, m);
      calc {
        Substitute(t, m);
        { SubstHead(t, m); }
        Then(out, Substitute(rest + b, m));
        Then(out, Then(Substitute(rest, m), tail));
        { ThenAssociative(out, Substitute(rest, m), tail); }
        Then(Then(out, Substitute(rest, m)), tail);
        { SubstHead(a, m); }
        Then(Substitute(a, m), tail);
      }
    }
  }

  /** Text without '$' in front of the rest is copied through, and errors keep their place. */
  lemma {:induction false} SubstPlainPrefix(pre: string, rest: string, m: map<string, string>)
    requires '$' !in pre
    ensures Substitute(pre + rest, m) == Then(Ok(pre), Substitute(rest, m))
    decreases |pre|
  {
    var t := pre + rest;
    if pre == [] {
      assert t == rest;
    } else {
      assert t[0] == pre[0] && t[1..] == pre[1..] + rest;
      SubstHead(t, m);
      SubstPlainPrefix(pre[1..], rest, m);
      ThenAssociative(Ok([pre[0]]), Ok(pre[1..]), Substitute(rest, m));
      assert [pre[0]] + pre[1..] == pre;
    }
  }

  /** `${name}` is a braced placeholder for `name`, whatever follows it. */
  lemma ClassifyBraced(name: string, post: string)
    requires IsName(name)
    ensures Classify("${" + name + "}" + post) == Named(name, 3 + |name|)
  {
    var t := "${" + name + "}" + post;
    assert t[2..] == name + ['}'] + post;
    IdRunOfName(name, '}', post);
    assert t[2..2 + |name|] == name;
  }

  /** `${name}` between '$'-free text is replaced by the name's value, and by nothing else. */
  lemma BracedPlaceholder(pre: string, name: string, post: string, m: map<string, string>)
    requires '$' !in pre && '$' !in post
    requires IsName(name) && name in m
    ensures Substitute(pre + "${" + name + "}" + post, m) == Ok(pre + m[name] + post)
  {
    var t := "${" + name + "}" + post;
    assert pre + "${" + name + "}" + post == pre + t;
    SubstPlainPrefix(pre, t, m);
    ClassifyBraced(name, post);
    SubstHead(t, m);
    assert t[3 + |name|..] == post;
    NoDollarUnchanged(post, m);
    assert pre + (m[name] + post) == pre + m[name] + post;
  }

  /** Only a '$' can fail, and a missing name is reported as it is written in the template. */
  lemma {:induction false} SubstituteErrors(t: string, m: map<string, string>)
    ensures Substitute(t, m).Err? ==> '$' in t
    ensures Substitute(t, m).Err? && Substitute(t, m).error.MissingKey? ==>
      IsName(Substitute(t, m).error.name) && Substitute(t, m).error.name !in m
    decreases |t|
  {
    if t != [] {
      var s := Step(t, m);
      SubstHead(t, m);
      SubstituteErrors(t[s.1..], m);
      if s.0.Err? && t[0] == '$' && Classify(t).Named? {
        ClassifyNamed(t);
      } else if Substitute(t[s.1..], m).Err? {
        assert '$' in t by {
          var i :| 0 <= i < |t[s.1..]| && t[s.1..][i] == '$';
          assert t[s.1 + i] == '$';
        }
      }
    }
  }

  /** `$$` stands for one '$', and the scan resumes right after it. */
  lemma EscapeStep(rest: string, m: map<string, string>)
    ensures Substitute("$$" + rest, m) == Then(Ok("$"), Substitute(rest, m))
  {
    var t := "$$" + rest;
    assert t[1] == '$';
    SubstHead(t, m);
    assert t[2..] == rest;
  }

  /** `$name` followed by a character that cannot continue the name stands for the name's value. */
  lemma UnbracedStep(name: string, rest: string, m: map<string, string>)
    requires IsName(name) && name in m
    requires rest != [] && !IsIdChar(rest[0])
    ensures Substitute("$" + name + rest, m) == Then(Ok(m[name]), Substitute(rest, m))
  {
    var t := "$" + name + rest;
    assert t[1..] == name + [rest[0]] + rest[1..];
    IdRunOfName(name, rest[0], rest[1..]);
    assert t[1..1 + |name|] == name;
    assert Classify(t) == Named(name, 1 + |name|);
    SubstHead(t, m);
    assert t[1 + |name|..] == rest;
  }

  /** A '$' followed by neither '$', '{' nor a name start raises `ValueError`, whatever comes later. */
  lemma InvalidStep(rest: string, m: map<string, string>)
    requires rest == [] || (rest[0] != '$' && rest[0] != '{' && !IsIdStart(rest[0]))
    ensures Substitute("$" + rest, m) == Err(InvalidPlaceholder)
  {
    var t := "$" + rest;
    assert Classify(t) == Invalid;
    SubstHead(t, m);
  }

  /** `$$` is an escaped '$': a doubled '$' between '$'-free text comes out single. */
  lemma EscapedDollar(pre: string, post: string, m: map<string, string>)
    requires '$' !in pre && '$' !in post
    ensures Substitute(pre + "$$" + post, m) == Ok(pre + "$" + post)
  {
    assert pre + "$$" + post == pre + ("$$" + post);
    SubstPlainPrefix(pre, "$$" + post, m);
    EscapeStep(post, m);
    NoDollarUnchanged(post, m);
    assert pre + ("$" + post) == pre + "$" + post;
  }

  /** A '$' before a digit raises `ValueError`, even with text before it. */
  lemma InvalidAfterDollar(m: map<string, string>)
    ensures Substitute("x=$1", m) == Err(InvalidPlaceholder)
  {
    assert "x=$1" == "x=" + ("$" + "1");
    SubstPlainPrefix("x=", "$" + "1", m);
    InvalidStep("1", m);
  }

  /** The first problem in the text is the one raised: here the missing name comes before the lone '$'. */
  lemma FirstErrorRaised()
    ensures Substitute("${a}$", map[]) == Err(MissingKey("a"))
  {
    ClassifyBraced("a", "$");
    assert "${a}$" == "${" + "a" + "}" + "$";
    SubstHead("${a}$", map[]);
  }

  /** `$name` without braces between '$'-free text is replaced by the name's value. */
  lemma UnbracedPlaceholder(pre: string, name: string, post: string, m: map<string, string>)
    requires '$' !in pre && '$' !in post
    requires IsName(name) && name in m
    requires post != [] && !IsIdChar(post[0])
    ensures Substitute(pre + "$" + name + post, m) == Ok(pre + m[name] + post)
  {
    var t := "$" + name + post;
    calc {
      Substitute(pre + "$" + name + post, m);
      { assert pre + "$" + name + post == pre + t; }
      Substitute(pre + t, m);
      { SubstPlainPrefix(pre, t, m); }
      Then(Ok(pre), Substitute(t, m));
      { UnbracedAlone(name, post, m); }
      Then(Ok(pre), Ok(m[name] + post));
      { assert pre + (m[name] + post) == pre + m[name] + post; }
      Ok(pre + m[name] + post);
    }
  }

  /** `$name` at the very start, then '$'-free text. */
  lemma UnbracedAlone(name: string, post: string, m: map<string, string>)
    requires '$' !in post
    requires IsName(name) && name in m
    requires post != [] && !IsIdChar(post[0])
    ensures Substitute("$" + name + post, m) == Ok(m[name] + post)
  {
    UnbracedStep(name, post, m);
    NoDollarUnchanged(post, m);
  }
}
