/**
 * Steps 6 and 7 of the provisioning script: the configuration text read right after the
 * placeholder reset is filled with the cluster endpoint and the role ARN through
 * `Template.substitute`, written back over the file, read again and checked for leftover
 * placeholders. The lemmas tie this to the reset: for a file whose lines other than the key
 * lines hold no '$', reset, fill, reset gives back the reset text.
 */
module ConfigWriter {
  import opened Wrappers
  import opened Text
  import opened Placeholders
  import opened TemplateSubst

  const HostName := "redshift_host"
  const RoleName := "iam_role_arn"

  /** The keyword arguments of the `substitute` call. */
  function Values(endpoint: string, roleArn: string): (m: map<string, string>)
    ensures m.Keys == {HostName, RoleName}
    ensures m[HostName] == endpoint && m[RoleName] == roleArn
  {
    map[HostName := endpoint, RoleName := roleArn]
  }

  /** Step 6: `cfg_template.substitute(redshift_host=endpoint, iam_role_arn=roleArn)`. */
  function Fill(template: string, endpoint: string, roleArn: string): (r: Result<string, SubstError>)
    ensures r.Err? ==> '$' in template
    ensures r.Err? && r.error.MissingKey? ==> r.error.name != HostName && r.error.name != RoleName
  {
    SubstituteErrors(template, Values(endpoint, roleArn));
    Substitute(template, Values(endpoint, roleArn))
  }

  /** The three assertions of Step 7, each with its own message. */
  datatype ValidationError = PlaceholderNotReplaced | HostPlaceholderRemains | RolePlaceholderRemains

  /** Step 7: the first of the three checks that fails, or `None` when the text passes all three. */
  function Validate(content: string): (r: Option<ValidationError>)
    ensures r.None? <==> !Contains(content, "${") && !Contains(content, HostName) && !Contains(content, RoleName)
    ensures r == Some(PlaceholderNotReplaced) <==> Contains(content, "${")
    ensures r == Some(HostPlaceholderRemains) ==> !Contains(content, "${") && Contains(content, HostName)
    ensures r == Some(RolePlaceholderRemains) ==>
      !Contains(content, "${") && !Contains(content, HostName) && Contains(content, RoleName)
  {
    if Contains(content, "${") then Some(PlaceholderNotReplaced)
    else if Contains(content, HostName) then Some(HostPlaceholderRemains)
    else if Contains(content, RoleName) then Some(RolePlaceholderRemains)
    else None
  }

  /** Why Steps 6 and 7 stop the script. */
  datatype ConfigError = FillFailed(cause: SubstError) | NotReplaced(check: ValidationError)

  /**
   * Steps 6 and 7 on the configuration file: when substitution raises, the file is not
   * touched; otherwise the filled text replaces the file's content and is then validated.
   */
  method WriteConfig(cfg: TextFile, template: string, endpoint: string, roleArn: string)
    returns (r: Option<ConfigError>)
    modifies cfg
    ensures Fill(template, endpoint, roleArn).Err? ==>
      cfg.text == old(cfg.text) && r == Some(FillFailed(Fill(template, endpoint, roleArn).error))
    ensures Fill(template, endpoint, roleArn).Ok? ==> cfg.text == Fill(template, endpoint, roleArn).value
    ensures Fill(template, endpoint, roleArn).Ok? ==>
      (r.None? <==> Validate(cfg.text).None?) &&
      (r.Some? ==> r == Some(NotReplaced(Validate(cfg.text).value)))
  {
    var filled := Fill(template, endpoint, roleArn);
    if filled.Err? {
      return Some(FillFailed(filled.error));
    }
    cfg.Truncate();
    cfg.Write(filled.value);
    var content := cfg.text;
    var check := Validate(content);
    if check.Some? {
      return Some(NotReplaced(check.value));
    }
    return None;
  }

  /** What a line of the reset text becomes in the filled text. */
  function FilledLine(line: string, endpoint: string, roleArn: string): string {
    if line == HostTemplateLine then HostKey + endpoint + "\n"
    else if line == RoleTemplateLine then RoleKey + roleArn + "\n"
    else line
  }

  function FilledAll(ls: seq<string>, endpoint: string, roleArn: string): seq<string> {
    seq(|ls|, i requires 0 <= i < |ls| => FilledLine(ls[i], endpoint, roleArn))
  }

  /** The lines the fill can handle: the two template lines, and lines without '$'. */
  predicate Fillable(ls: seq<string>) {
    forall i :: 0 <= i < |ls| ==> ls[i] == HostTemplateLine || ls[i] == RoleTemplateLine || '$' !in ls[i]
  }

  lemma NamesAreNames()
    ensures IsName(HostName) && IsName(RoleName)
  {
    assert forall i :: 0 <= i < |HostName| ==> IsIdChar(HostName[i]);
    assert forall i :: 0 <= i < |RoleName| ==> IsIdChar(RoleName[i]);
  }

  /** The template lines are their key, a braced placeholder and a newline. */
  lemma TemplateLineShapes()
    ensures HostTemplateLine == HostKey + "${" + HostName + "}" + "\n"
    ensures RoleTemplateLine == RoleKey + "${" + RoleName + "}" + "\n"
  {
  }

  /** `HOST=${redshift_host}` takes the endpoint verbatim, whatever characters it holds. */
  lemma FillHostLine(endpoint: string, roleArn: string)
    ensures Fill(HostTemplateLine, endpoint, roleArn) == Ok(HostKey + endpoint + "\n")
  {
    var m := Values(endpoint, roleArn);
    calc {
      Fill(HostTemplateLine, endpoint, roleArn);
      { TemplateLineShapes(); }
      Substitute(HostKey + "${" + HostName + "}" + "\n", m);
      { NamesAreNames(); BracedPlaceholder(HostKey, HostName, "\n", m); }
      Ok(HostKey + endpoint + "\n");
    }
  }

  /** `IAM_ROLE_ARN=${iam_role_arn}` takes the role ARN verbatim, whatever characters it holds. */
  lemma FillRoleLine(endpoint: string, roleArn: string)
    ensures Fill(RoleTemplateLine, endpoint, roleArn) == Ok(RoleKey + roleArn + "\n")
  {
    var m := Values(endpoint, roleArn);
    calc {
      Fill(RoleTemplateLine, endpoint, roleArn);
      { TemplateLineShapes(); }
      Substitute(RoleKey + "${" + RoleName + "}" + "\n", m);
      { NamesAreNames(); BracedPlaceholder(RoleKey, RoleName, "\n", m); }
      Ok(RoleKey + roleArn + "\n");
    }
  }

  /** One line: filled as `FilledLine` says. */
  lemma FillLine(line: string, endpoint: string, roleArn: string)
    requires line == HostTemplateLine || line == RoleTemplateLine || '$' !in line
    ensures Fill(line, endpoint, roleArn) == Ok(FilledLine(line, endpoint, roleArn))
  {
    if line == HostTemplateLine {
      FillHostLine(endpoint, roleArn);
    } else if line == RoleTemplateLine {
      FillRoleLine(endpoint, roleArn);
    } else {
      NoDollarUnchanged(line, Values(endpoint, roleArn));
    }
  }

  /** The whole text is filled line by line. */
  lemma {:induction false} FillJoin(ls: seq<string>, endpoint: string, roleArn: string)
    requires WellFormedLines(ls) && Fillable(ls)
    ensures Fill(Join(ls), endpoint, roleArn) == Ok(Join(FilledAll(ls, endpoint, roleArn)))
  {
    var m := Values(endpoint, roleArn);
    var out := FilledAll(ls, endpoint, roleArn);
    if ls != [] {
      var l := ls[0];
      var rest := ls[1..];
      if |ls| == 1 {
        assert ls == [l] && out == [FilledLine(l, endpoint, roleArn)];
        calc {
          Fill(Join(ls), endpoint, roleArn);
          { assert ls[1..] == [] && l + [] == l; }
          Fill(l, endpoint, roleArn);
          { FillLine(l, endpoint, roleArn); }
          Ok(FilledLine(l, endpoint, roleArn));
          { assert out[1..] == [] && out[0] + [] == out[0]; }
          Ok(Join(out));
        }
      } else {
        assert EndsWithNewline(l);
        assert WellFormedLines(rest) && Fillable(rest);
        calc {
          Fill(Join(ls), endpoint, roleArn);
          Substitute(l + Join(rest), m);
          { SubstAppend(l, Join(rest), m); }
          Then(Substitute(l, m), Substitute(Join(rest), m));
          { FillLine(l, endpoint, roleArn); FillJoin(rest, endpoint, roleArn); }
          Then(Ok(FilledLine(l, endpoint, roleArn)), Ok(Join(FilledAll(rest, endpoint, roleArn))));
          Ok(FilledLine(l, endpoint, roleArn) + Join(FilledAll(rest, endpoint, roleArn)));
          { assert out[1..] == FilledAll(rest, endpoint, roleArn); }
          Ok(Join(out));
        }
      }
    }
  }

  /** With no '\n' in the values, the filled lines are still lines. */
  lemma FilledWellFormed(ls: seq<string>, endpoint: string, roleArn: string)
    requires WellFormedLines(ls)
    requires '\n' !in endpoint && '\n' !in roleArn
    ensures WellFormedLines(FilledAll(ls, endpoint, roleArn))
  {
    var out := FilledAll(ls, endpoint, roleArn);
    forall i | 0 <= i < |ls| ensures IsLine(out[i]) && (EndsWithNewline(ls[i]) ==> EndsWithNewline(out[i])) {
      if ls[i] == HostTemplateLine {
        assert out[i] == HostKey + endpoint + "\n";
        assert forall j :: 0 <= j < |out[i]| - 1 ==> out[i][j] != '\n' by {
          forall j | 0 <= j < |out[i]| - 1 ensures out[i][j] != '\n' {
            if j >= |HostKey| {
              assert out[i][j] == endpoint[j - |HostKey|];
            }
          }
        }
      } else if ls[i] == RoleTemplateLine {
        assert out[i] == RoleKey + roleArn + "\n";
        assert forall j :: 0 <= j < |out[i]| - 1 ==> out[i][j] != '\n' by {
          forall j | 0 <= j < |out[i]| - 1 ensures out[i][j] != '\n' {
            if j >= |RoleKey| {
              assert out[i][j] == roleArn[j - |RoleKey|];
            }
          }
        }
      }
    }
  }

  /** A filled `HOST=` line is reset to its template line. */
  lemma ResetFilledHostLine(endpoint: string)
    ensures ResetLine(HostKey + endpoint + "\n") == HostTemplateLine
  {
    assert HostKey + endpoint + "\n" == [] + HostKey + (endpoint + "\n");
    IndentedKeyLineReplaced([], endpoint + "\n");
  }

  /** A filled `IAM_ROLE_ARN=` line is reset to its template line. */
  lemma ResetFilledRoleLine(roleArn: string)
    ensures ResetLine(RoleKey + roleArn + "\n") == RoleTemplateLine
  {
    assert RoleKey + roleArn + "\n" == [] + RoleKey + (roleArn + "\n");
    IndentedKeyLineReplaced([], roleArn + "\n");
  }

  /** Resetting a filled line gives back the template line it came from. */
  lemma ResetFilledLine(line: string, endpoint: string, roleArn: string)
    requires ResetLine(line) == line
    ensures ResetLine(FilledLine(line, endpoint, roleArn)) == line
  {
    if line == HostTemplateLine {
      ResetFilledHostLine(endpoint);
    } else if line == RoleTemplateLine {
      ResetFilledRoleLine(roleArn);
    }
  }

  /** The reset text is made of lines the reset leaves alone. */
  lemma ResetLinesFixed(text: string)
    ensures forall i :: 0 <= i < |ResetAll(SplitLines(text))| ==>
      ResetLine(ResetAll(SplitLines(text))[i]) == ResetAll(SplitLines(text))[i]
  {
    var ls := ResetAll(SplitLines(text));
    forall i | 0 <= i < |ls| ensures ResetLine(ls[i]) == ls[i] {
      ResetLineKeepsKind(SplitLines(text)[i]);
    }
  }

  /** The lines of a configuration file the script can fill: key lines, and lines without '$'. */
  predicate FillableText(text: string) {
    forall i :: 0 <= i < |SplitLines(text)| ==>
      IsKeyLine(SplitLines(text)[i], HostKey) || IsKeyLine(SplitLines(text)[i], RoleKey) || '$' !in SplitLines(text)[i]
  }

  lemma ResetIsFillable(text: string)
    requires FillableText(text)
    ensures Fillable(ResetAll(SplitLines(text)))
  {
  }

  /** Resetting the filled lines gives back lines the reset leaves alone. */
  lemma ResetAfterFill(ls: seq<string>, endpoint: string, roleArn: string)
    requires forall i :: 0 <= i < |ls| ==> ResetLine(ls[i]) == ls[i]
    ensures ResetAll(FilledAll(ls, endpoint, roleArn)) == ls
  {
    var out := FilledAll(ls, endpoint, roleArn);
    forall i | 0 <= i < |ls| ensures ResetAll(out)[i] == ls[i] {
      ResetFilledLine(ls[i], endpoint, roleArn);
    }
  }

  /**
   * The script's config round trip, for a file whose lines other than the key lines hold no
   * '$' and values without a newline: after the reset (line 20), the fill succeeds, the filled
   * file has the reset file's lines with the two template lines completed, and resetting the
   * filled file gives back the reset file exactly.
   */
  lemma RoundTrip(text: string, endpoint: string, roleArn: string)
    requires FillableText(text)
    requires '\n' !in endpoint && '\n' !in roleArn
    ensures Fill(ResetText(text), endpoint, roleArn).Ok?
    ensures SplitLines(Fill(ResetText(text), endpoint, roleArn).value) ==
      FilledAll(ResetAll(SplitLines(text)), endpoint, roleArn)
    ensures ResetText(Fill(ResetText(text), endpoint, roleArn).value) == ResetText(text)
  {
    var ls := ResetAll(SplitLines(text));
    var out := FilledAll(ls, endpoint, roleArn);
    ResetAllWellFormed(SplitLines(text));
    ResetIsFillable(text);
    FillJoin(ls, endpoint, roleArn);
    assert Fill(ResetText(text), endpoint, roleArn) == Ok(Join(out));
    FilledWellFormed(ls, endpoint, roleArn);
    SplitLinesOfJoin(out);
    calc {
      ResetText(Join(out));
      Join(ResetAll(SplitLines(Join(out))));
      Join(ResetAll(out));
      { ResetLinesFixed(text); ResetAfterFill(ls, endpoint, roleArn); }
      Join(ls);
    }
  }

  /** Text free of everything Step 7 looks for. */
  predicate NoPlaceholderText(s: string) {
    !Contains(s, "${") && !Contains(s, HostName) && !Contains(s, RoleName)
  }

  /** A filled key line holds a pattern only if its value does. */
  lemma FilledKeyLineClean(k: string, v: string, p: string)
    requires p != [] && '=' !in p && '\n' !in p
    requires !Contains(k, p) && !Contains(v, p)
    ensures !Contains(k + "=" + v + "\n", p)
  {
    ContainsAcross(k, '=', v + "\n", p);
    ContainsAcross(v, '\n', [], p);
    assert k + ['='] + (v + "\n") == k + "=" + v + "\n";
    assert v + ['\n'] + [] == v + "\n";
  }

  /** The filled `HOST=` line passes Step 7 when the endpoint does. */
  lemma FilledHostLineClean(endpoint: string)
    requires NoPlaceholderText(endpoint)
    ensures NoPlaceholderText(HostKey + endpoint + "\n")
  {
    var host := "HOST";
    var line := HostKey + endpoint + "\n";
    assert line == host + "=" + endpoint + "\n";
    PatternsWithinLine();
    assert !Contains(line, "${") by {
      MissingHead(host, "${");
      FilledKeyLineClean(host, endpoint, "${");
    }
    assert !Contains(line, HostName) by {
      FilledKeyLineClean(host, endpoint, HostName);
    }
    assert !Contains(line, RoleName) by {
      FilledKeyLineClean(host, endpoint, RoleName);
    }
  }

  /** The filled `IAM_ROLE_ARN=` line passes Step 7 when the ARN does: the key is upper case. */
  lemma FilledRoleLineClean(roleArn: string)
    requires NoPlaceholderText(roleArn)
    ensures NoPlaceholderText(RoleKey + roleArn + "\n")
  {
    var role := "IAM_ROLE_ARN";
    var line := RoleKey + roleArn + "\n";
    assert line == role + "=" + roleArn + "\n";
    PatternsWithinLine();
    assert !Contains(line, "${") by {
      MissingHead(role, "${");
      FilledKeyLineClean(role, roleArn, "${");
    }
    assert !Contains(line, HostName) by {
      FilledKeyLineClean(role, roleArn, HostName);
    }
    assert !Contains(line, RoleName) by {
      assert !Contains(role, RoleName) by {
        assert role[0] != RoleName[0];
      }
      FilledKeyLineClean(role, roleArn, RoleName);
    }
  }

  /** A configuration whose other lines hold no '$' and do not name either placeholder. */
  predicate CleanText(text: string) {
    forall i :: 0 <= i < |SplitLines(text)| ==>
      IsKeyLine(SplitLines(text)[i], HostKey) || IsKeyLine(SplitLines(text)[i], RoleKey) ||
      ('$' !in SplitLines(text)[i] && NoPlaceholderText(SplitLines(text)[i]))
  }

  /** Every line of the filled text passes Step 7. */
  lemma FilledLinesPass(text: string, endpoint: string, roleArn: string)
    requires CleanText(text)
    requires NoPlaceholderText(endpoint) && NoPlaceholderText(roleArn)
    ensures var out := FilledAll(ResetAll(SplitLines(text)), endpoint, roleArn);
      forall i :: 0 <= i < |out| ==> NoPlaceholderText(out[i])
  {
    var ls := ResetAll(SplitLines(text));
    var out := FilledAll(ls, endpoint, roleArn);
    forall i | 0 <= i < |out| ensures NoPlaceholderText(out[i]) {
      if ls[i] == HostTemplateLine {
        FilledHostLineClean(endpoint);
      } else if ls[i] == RoleTemplateLine {
        FilledRoleLineClean(roleArn);
      }
    }
  }

  /** The text the script writes is the filled lines, each of which passes Step 7. */
  lemma FilledTextPasses(text: string, endpoint: string, roleArn: string)
    requires CleanText(text)
    requires '\n' !in endpoint && '\n' !in roleArn
    requires NoPlaceholderText(endpoint) && NoPlaceholderText(roleArn)
    ensures var out := FilledAll(ResetAll(SplitLines(text)), endpoint, roleArn);
      Fill(ResetText(text), endpoint, roleArn) == Ok(Join(out)) &&
      WellFormedLines(out) && forall i :: 0 <= i < |out| ==> NoPlaceholderText(out[i])
  {
    var ls := ResetAll(SplitLines(text));
    var out := FilledAll(ls, endpoint, roleArn);
    assert FillableText(text);
    RoundTrip(text, endpoint, roleArn);
    var filled := Fill(ResetText(text), endpoint, roleArn).value;
    assert filled == Join(out) by {
      assert Join(SplitLines(filled)) == filled;
    }
    ResetAllWellFormed(SplitLines(text));
    FilledWellFormed(ls, endpoint, roleArn);
    FilledLinesPass(text, endpoint, roleArn);
  }

  /**
   * When the other lines and the two values hold none of the three patterns, the text the
   * script writes passes Step 7.
   */
  lemma ValidateAfterFill(text: string, endpoint: string, roleArn: string)
    requires CleanText(text)
    requires '\n' !in endpoint && '\n' !in roleArn
    requires NoPlaceholderText(endpoint) && NoPlaceholderText(roleArn)
    ensures Fill(ResetText(text), endpoint, roleArn).Ok?
    ensures Validate(Fill(ResetText(text), endpoint, roleArn).value).None?
  {
    FilledTextPasses(text, endpoint, roleArn);
    ValidateLines(FilledAll(ResetAll(SplitLines(text)), endpoint, roleArn));
  }

  /** None of the three patterns holds a line break or an '='. */
  lemma PatternsWithinLine()
    ensures '\n' !in "${" && '=' !in "${"
    ensures '\n' !in HostName && '=' !in HostName
    ensures '\n' !in RoleName && '=' !in RoleName
  {
    assert forall i :: 0 <= i < |HostName| ==> IsIdChar(HostName[i]);
    assert forall i :: 0 <= i < |RoleName| ==> IsIdChar(RoleName[i]);
  }

  /** No line holds any of the three patterns. */
  predicate LinesClean(ls: seq<string>) {
    forall i :: 0 <= i < |ls| ==> NoPlaceholderText(ls[i])
  }

  /** `${`, absent from every line, is absent from the joined lines. */
  lemma BraceNotInJoin(ls: seq<string>)
    requires WellFormedLines(ls) && LinesClean(ls)
    ensures !Contains(Join(ls), "${")
  {
    PatternsWithinLine();
    assert forall i :: 0 <= i < |ls| ==> !Contains(ls[i], "${");
    ContainsJoin(ls, "${");
  }

  /** `redshift_host`, absent from every line, is absent from the joined lines. */
  lemma HostNameNotInJoin(ls: seq<string>)
    requires WellFormedLines(ls) && LinesClean(ls)
    ensures !Contains(Join(ls), HostName)
  {
    PatternsWithinLine();
    assert forall i :: 0 <= i < |ls| ==> !Contains(ls[i], HostName);
    ContainsJoin(ls, HostName);
  }

  /** `iam_role_arn`, absent from every line, is absent from the joined lines. */
  lemma RoleNameNotInJoin(ls: seq<string>)
    requires WellFormedLines(ls) && LinesClean(ls)
    ensures !Contains(Join(ls), RoleName)
  {
    PatternsWithinLine();
    assert forall i :: 0 <= i < |ls| ==> !Contains(ls[i], RoleName);
    ContainsJoin(ls, RoleName);
  }

  /** Lines that each hold none of the patterns hold none together: no pattern spans a line break. */
  lemma JoinWithoutPlaceholders(ls: seq<string>)
    requires WellFormedLines(ls)
    requires forall i :: 0 <= i < |ls| ==> NoPlaceholderText(ls[i])
    ensures NoPlaceholderText(Join(ls))
  {
    assert LinesClean(ls);
    BraceNotInJoin(ls);
    HostNameNotInJoin(ls);
    RoleNameNotInJoin(ls);
  }

  /** Lines that each pass Step 7 pass it together. */
  lemma ValidateLines(ls: seq<string>)
    requires WellFormedLines(ls)
    requires forall i :: 0 <= i < |ls| ==> NoPlaceholderText(ls[i])
    ensures Validate(Join(ls)).None?
  {
    JoinWithoutPlaceholders(ls);
  }

  /** Before the fill, a reset text with a `HOST=` or `IAM_ROLE_ARN=` line fails the first check. */
  lemma ValidateRejectsTemplate(text: string, k: nat)
    requires k < |SplitLines(text)|
    requires IsKeyLine(SplitLines(text)[k], HostKey) || IsKeyLine(SplitLines(text)[k], RoleKey)
    ensures Validate(ResetText(text)) == Some(PlaceholderNotReplaced)
  {
    var ls := ResetAll(SplitLines(text));
    assert ls[k] == HostTemplateLine || ls[k] == RoleTemplateLine;
    assert Contains(ls[k], "${") by {
      TemplateLinesHavePlaceholder();
    }
    assert Contains(ResetText(text), "${") by {
      ContainsInJoin(ls, k, "${");
    }
  }

  lemma TemplateLinesHavePlaceholder()
    ensures Contains(HostTemplateLine, "${") && Contains(RoleTemplateLine, "${")
  {
    assert OccursAt(HostTemplateLine, "${", |HostKey|);
    assert OccursAt(RoleTemplateLine, "${", |RoleKey|);
  }
}
