/**
 * `reset_placeholders` (utils.py): the configuration file is read as lines and written
 * back one line at a time, with every `HOST=` line and every `IAM_ROLE_ARN=` line
 * replaced by its `${...}` placeholder form.
 */
module Placeholders {
  import opened Text

  const HostKey := "HOST="
  const RoleKey := "IAM_ROLE_ARN="
  const HostTemplateLine := "HOST=${redshift_host}\n"
  const RoleTemplateLine := "IAM_ROLE_ARN=${iam_role_arn}\n"

  /** `line.strip().startswith(key)` */
  predicate IsKeyLine(line: string, key: string) {
    StartsWith(Strip(line), key)
  }

  /** What the loop writes for one line it has read. */
  function ResetLine(line: string): string {
    if IsKeyLine(line, HostKey) then HostTemplateLine
    else if IsKeyLine(line, RoleKey) then RoleTemplateLine
    else line
  }

  /** The lines the loop writes, in order. */
  function ResetAll(lines: seq<string>): seq<string> {
    seq(|lines|, i requires 0 <= i < |lines| => ResetLine(lines[i]))
  }

  /** The file's text after `reset_placeholders`. */
  function ResetText(text: string): string {
    Join(ResetAll(SplitLines(text)))
  }

  /** A text file: its whole content as a string. */
  class TextFile {
    var text: string

    constructor (text: string)
      ensures this.text == text
    {
      this.text := text;
    }

    /** Opening the file with mode "w" empties it. */
    method Truncate()
      modifies this
      ensures text == []
    {
      text := [];
    }

    /** `f.write(s)` appends `s`. */
    method Write(s: string)
      modifies this
      ensures text == old(text) + s
    {
      text := text + s;
    }
  }

  /** `reset_placeholders(config_path)` on the file `f`. */
  method ResetPlaceholders(f: TextFile)
    modifies f
    ensures f.text == ResetText(old(f.text))
  {
    var lines := SplitLines(f.text);
    ghost var written := ResetAll(lines);
    f.Truncate();
    for i := 0 to |lines|
      invariant f.text == Join(written[..i])
    {
      var line := lines[i];
      ghost var before := f.text;
      assert written[i] == ResetLine(line);
      if IsKeyLine(line, HostKey) {
        f.Write(HostTemplateLine);
        assert f.text == before + written[i];
      } else if IsKeyLine(line, RoleKey) {
        f.Write(RoleTemplateLine);
        assert f.text == before + written[i];
      } else {
        f.Write(line);
        assert f.text == before + written[i];
      }
      JoinPrefixStep(written, i);
    }
    assert written[..|lines|] == written;
  }

  /** Whether a line is rewritten depends on its text after the leading whitespace only. */
  lemma KeyLineIffAfterIndent(line: string)
    ensures IsKeyLine(line, HostKey) <==> StartsWith(LStrip(line), HostKey)
    ensures IsKeyLine(line, RoleKey) <==> StartsWith(LStrip(line), RoleKey)
  {
    StripStartsWith(line, HostKey);
    StripStartsWith(line, RoleKey);
  }

  /** The two keys never both match: they differ in their first character. */
  lemma KeysExclusive(line: string)
    ensures !(IsKeyLine(line, HostKey) && IsKeyLine(line, RoleKey))
  {
    var t := Strip(line);
    if StartsWith(t, HostKey) {
      assert t[0] == 'H';
    }
  }

  /** An indented `HOST=` or `IAM_ROLE_ARN=` line is replaced whole: indentation and old value dropped, '\n' added. */
  lemma IndentedKeyLineReplaced(indent: string, value: string)
    requires AllSpace(indent)
    ensures ResetLine(indent + HostKey + value) == HostTemplateLine
    ensures ResetLine(indent + RoleKey + value) == RoleTemplateLine
  {
    IndentedStartsWith(indent, HostKey, value);
    IndentedStartsWith(indent, RoleKey, value);
    KeysExclusive(indent + RoleKey + value);
  }

  /**
   * A line that starts, unindented, with `head` is not a key line when `head` differs
   * from `HOST=` at index `h` and from `IAM_ROLE_ARN=` at index `r`.
   */
  lemma NotKeyLine(head: string, rest: string, h: nat, r: nat)
    requires head != [] && !IsSpace(head[0])
    requires h < |HostKey| && h < |head| && head[h] != HostKey[h]
    requires r < |RoleKey| && r < |head| && head[r] != RoleKey[r]
    ensures ResetLine(head + rest) == head + rest
  {
    var line := head + rest;
    assert line[0] == head[0];
    LStripNoLeadingSpace(line);
    KeyLineIffAfterIndent(line);
    assert line[h] == head[h] && line[r] == head[r];
  }

  /** Matching needs '=' right after the key: `HOSTNAME=...` and `HOST =...` lines are written back as they were. */
  lemma NearMissesUntouched(rest: string)
    ensures ResetLine("HOSTNAME=" + rest) == "HOSTNAME=" + rest
    ensures ResetLine("HOST =" + rest) == "HOST =" + rest
    ensures ResetLine("IAM_ROLE_ARN =" + rest) == "IAM_ROLE_ARN =" + rest
  {
    NotKeyLine("HOSTNAME=", rest, 4, 0);
    NotKeyLine("HOST =", rest, 4, 0);
    NotKeyLine("IAM_ROLE_ARN =", rest, 0, 12);
  }

  /** The `HOST=` replacement line is a `HOST=` line and not an `IAM_ROLE_ARN=` line. */
  lemma HostTemplateLineKind()
    ensures IsKeyLine(HostTemplateLine, HostKey) && !IsKeyLine(HostTemplateLine, RoleKey)
  {
    StrippedStartsWith(HostTemplateLine, HostKey);
    KeysExclusive(HostTemplateLine);
  }

  /** The `IAM_ROLE_ARN=` replacement line is an `IAM_ROLE_ARN=` line and not a `HOST=` line. */
  lemma RoleTemplateLineKind()
    ensures IsKeyLine(RoleTemplateLine, RoleKey) && !IsKeyLine(RoleTemplateLine, HostKey)
  {
    StrippedStartsWith(RoleTemplateLine, RoleKey);
    KeysExclusive(RoleTemplateLine);
  }

  /** A replacement line is itself a line of the same kind, so the rewrite is stable. */
  lemma ResetLineKeepsKind(line: string)
    ensures IsKeyLine(ResetLine(line), HostKey) <==> IsKeyLine(line, HostKey)
    ensures IsKeyLine(ResetLine(line), RoleKey) <==> IsKeyLine(line, RoleKey)
    ensures ResetLine(ResetLine(line)) == ResetLine(line)
  {
    HostTemplateLineKind();
    RoleTemplateLineKind();
    KeysExclusive(line);
  }

  /** The replacement lines are lines that end with '\n'. */
  lemma TemplateLinesAreLines()
    ensures IsLine(HostTemplateLine) && EndsWithNewline(HostTemplateLine)
    ensures IsLine(RoleTemplateLine) && EndsWithNewline(RoleTemplateLine)
  {
  }

  /** Every line written is a line, and every line but the last still ends with '\n'. */
  lemma ResetAllWellFormed(lines: seq<string>)
    requires WellFormedLines(lines)
    ensures WellFormedLines(ResetAll(lines))
  {
    TemplateLinesAreLines();
    var out := ResetAll(lines);
    forall i | 0 <= i < |out| ensures IsLine(out[i]) && (i < |out| - 1 ==> EndsWithNewline(out[i])) {
      assert out[i] == ResetLine(lines[i]);
    }
  }

  /**
   * Reading the rewritten file gives as many lines as before, in the same order,
   * each the rewrite of the line that was there.
   */
  lemma ResetKeepsLines(text: string)
    ensures SplitLines(ResetText(text)) == ResetAll(SplitLines(text))
    ensures |SplitLines(ResetText(text))| == |SplitLines(text)|
  {
    ResetAllWellFormed(SplitLines(text));
    SplitLinesOfJoin(ResetAll(SplitLines(text)));
  }

  /** Rewriting the lines twice gives what rewriting them once gives. */
  lemma ResetAllIdempotent(lines: seq<string>)
    ensures ResetAll(ResetAll(lines)) == ResetAll(lines)
  {
    var once := ResetAll(lines);
    forall i | 0 <= i < |lines| ensures ResetAll(once)[i] == once[i] {
      ResetLineKeepsKind(lines[i]);
    }
  }

  /** Resetting an already reset file changes nothing. */
  lemma ResetTextIdempotent(text: string)
    ensures ResetText(ResetText(text)) == ResetText(text)
  {
    ResetKeepsLines(text);
    ResetAllIdempotent(SplitLines(text));
  }
}
