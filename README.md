# Redshift provisioning script, modelled in Dafny

This project models the part of the data-warehouse provisioning repository that decides
things: the handling of the `dwh.cfg` text, and the control flow of the script that creates
the cloud resources.

- **Placeholder reset** (`utils.py`). `reset_placeholders` reads the configuration file's
  lines and writes them back one at a time. A line whose stripped text starts with `HOST=`
  becomes `HOST=${redshift_host}\n`. A line whose stripped text starts with `IAM_ROLE_ARN=`
  becomes `IAM_ROLE_ARN=${iam_role_arn}\n`. Every other line is copied. The file is a
  `TextFile` object whose text the method truncates and appends to, in a `for` loop.
- **Setting extraction** (Step 0). `extract_value` does a regex search for `KEY=(.+)`, then
  strip and split, and takes the first token. The model writes this out over strings:
  - the first position where the key, then `=`, then one character other than a newline
    occur;
  - the captured group up to the end of the line;
  - Python's whitespace set for `strip`/`split`;
  - an `IndexError` when the group is all whitespace.

  `int()` on the two numeric settings follows Python's grammar: an optional sign, digits,
  and single underscores between digits. The nine settings are read in the script's order;
  the first that fails aborts the script.
- **Template substitution** (Step 6). `string.Template.substitute` is modelled with its
  whole `$` grammar:
  - `$$` is an escape;
  - `$name` and `${name}` are placeholders, where a name is an ASCII identifier;
  - a `$` followed by anything else is an invalid placeholder (`ValueError`);
  - a name missing from the mapping raises `KeyError`;
  - the first problem in scan order is the one raised.
- **Validation** (Step 7). Three checks run in order, each with its own error: `${`, then
  `redshift_host`, then `iam_role_arn`.
- **Provisioning** (Steps 2–5). Each cloud call's outcome is an input: a value, a
  `ClientError(code, text)` or another exception. Each step is a method that returns its
  result and the requests it issued:
  - **Role**: only `EntityAlreadyExists` is swallowed. The policy attach and the ARN lookup
    follow.
  - **Cluster**: every `ClientError` is swallowed.
  - **Readiness loop**: it sleeps 30 seconds after "not found" and after any status other
    than `available`. An empty cluster list (`IndexError`) or a descriptor without a status
    (`KeyError`) raises out of the loop.
  - **Ingress**: a `ClientError` whose text contains `InvalidPermission.Duplicate` is
    swallowed. An empty group list raises an exception that is not a `ClientError`.
- **The whole script**. `CreateResources` runs:
  1. the reset;
  2. settings loading;
  3. Steps 2–5;
  4. the rewrite of the file and its validation.

  Its contract ties the final file to the cluster endpoint and the role ARN. For each way the
  run can stop short of Step 6 it states the exception raised and the calls made up to it.
  It also states the round trip, for a file whose every line other than a `HOST=` or
  `IAM_ROLE_ARN=` line is free of `$`, and for an endpoint and an ARN without a newline:
  resetting the written file then gives back the reset file. Without that condition the
  round trip can fail: a line `PASSWORD=pa$word` makes the substitution raise `KeyError`, and
  `P=$$x` is written as `P=$x`.

The teardown script does not reset the placeholders. The only reset is the one at the start
of the create script (create_aws_resources.py:20), and this model follows that code.

Files:
- `wrappers.dfy`: `Option` and `Result`.
- `text.dfy`: Python string helpers — `isspace`, `strip`, `split`, `readlines` and `in`.
- `placeholders.dfy`: `utils.py`.
- `extract.dfy`: Step 0.
- `template.dfy`: `Template.substitute`.
- `config_writer.dfy`: Steps 6–7 and the round trip.
- `provision.dfy`: Steps 2–5 and the script as a whole.

## Model

| member | source | states |
|---|---|---|
| Text.Split | create_aws_resources.py:28 | `split()` gives no words exactly when the text is all whitespace; its first word is the leading run of non-whitespace after the leading whitespace |
| Text.IsSpace | create_aws_resources.py:28 | Python's `str.isspace` set: ASCII tab to carriage return, the four separators `\x1c`–`\x1f`, space, and the Unicode spaces and line and paragraph separators |
| Text.LStrip | utils.py:13 | `lstrip()`: a suffix of the text that is empty or starts with a non-whitespace character; what it drops is whitespace (`LStripDropsSpace`) |
| Text.RStrip | utils.py:13 | `rstrip()`: a prefix of the text that is empty or ends with a non-whitespace character; what it drops is whitespace (`RStripDropsSpace`) |
| Text.Strip | create_aws_resources.py:28 | `strip()`: the slice of the text that starts after the leading whitespace; it is empty or starts and ends with a non-whitespace character |
| Text.FirstWordShape | create_aws_resources.py:28 | for text that is not all whitespace, the first `split()` word of the text without its leading whitespace sits right after that whitespace and ends at whitespace or the end |
| Text.SplitLines | utils.py:9 | `readlines()`: joining the lines gives the text back; every line but the last ends in a newline |
| Text.SplitLinesOfJoin | utils.py:9 | reading back lines written one after another gives the same lines |
| Text.StripStartsWith | utils.py:13 | for a key that does not end in whitespace, `strip().startswith(key)` is the same as starting with the key after the indentation |
| Placeholders.TextFile.Truncate | utils.py:11 | opening the file for writing empties it |
| Placeholders.TextFile.Write | utils.py:14-18 | a write appends its text to the file |
| Placeholders.ResetPlaceholders | utils.py:3-18 | the file's new text is the reset of each of its old lines, written in order |
| Placeholders.ResetLine | utils.py:13-18 | the line written for one line read; what it is is stated by `IndentedKeyLineReplaced`, `NotKeyLine`, `NearMissesUntouched` and `ResetLineKeepsKind` |
| Placeholders.ResetAll | utils.py:12-18 | the lines the loop writes, one per line read, in order; `ResetAllWellFormed` and `ResetAllIdempotent` state its properties |
| Placeholders.ResetText | utils.py:8-18 | the file's text after the reset; `ResetKeepsLines` and `ResetTextIdempotent` state its properties, and `ResetPlaceholders` is proved to produce it |
| Placeholders.ResetKeepsLines | utils.py:8-18 | the reset text has as many lines as the original, and each is the reset of the original line at that index |
| Placeholders.IndentedKeyLineReplaced | utils.py:13-16 | any indentation, then `HOST=` or `IAM_ROLE_ARN=`, then any value: the line becomes exactly the template line; indentation is dropped and a newline added |
| Placeholders.KeyLineIffAfterIndent | utils.py:13-15 | a line is a key line exactly when its text after the indentation starts with the key |
| Placeholders.KeysExclusive | utils.py:13-16 | no line is both a `HOST=` and an `IAM_ROLE_ARN=` line |
| Placeholders.NotKeyLine | utils.py:17-18 | an unindented line that differs from both keys somewhere in the key's length is written back unchanged |
| Placeholders.NearMissesUntouched | utils.py:13-18 | `HOSTNAME=…`, `HOST =…` and `IAM_ROLE_ARN =…` lines are written back unchanged |
| Placeholders.ResetLineKeepsKind | utils.py:13-18 | a reset line is a key line of the same key as before, so resetting it again changes nothing |
| Placeholders.ResetAllWellFormed | utils.py:11-18 | the reset of well-formed lines is well-formed |
| Placeholders.ResetAllIdempotent | utils.py:11-18 | resetting reset lines changes nothing |
| Placeholders.ResetTextIdempotent | utils.py:3-18 | running the reset twice gives the same file as running it once |
| Extract.FirstMatch | create_aws_resources.py:27 | the leftmost position from a start where the key, `=` and a non-newline character occur, or `None` when there is no such position |
| Extract.Captured | create_aws_resources.py:27 | `group(1)` of a match: a non-empty run without newline right after the key and `=`, running to the end of its line |
| Extract.Search | create_aws_resources.py:27 | there is no match exactly when no position holds the key, `=` and a non-newline character; a match is the leftmost such position, and the group is the rest of that line after `=`: non-empty, without newline, ending at a newline or the end of the text |
| Extract.ExtractValue | create_aws_resources.py:26-28 | `None` exactly when the key is never followed by `=` and a character on the same line |
| Extract.ExtractFound | create_aws_resources.py:28 | a returned value is the first whitespace-delimited word of the captured rest of the line, found right after its leading whitespace |
| Extract.ExtractNoToken | create_aws_resources.py:28 | the split is empty (an `IndexError`) exactly when there is a match and it is all whitespace |
| Extract.FoundIsToken | create_aws_resources.py:28 | a returned value is non-empty and holds no whitespace |
| Extract.EmptyAssignmentSkipped | create_aws_resources.py:27 | `DB=` with nothing after it is skipped, and the next `DB=dwh` gives `dwh` |
| Extract.BlankAssignmentFails | create_aws_resources.py:28 | `DB=` followed by blanks makes the lookup fail instead of reading a later line |
| Extract.MatchIsUnanchored | create_aws_resources.py:27 | the key also matches inside a longer key (`XDB=1` is read for `DB`) |
| Extract.ParseInt | create_aws_resources.py:31 | `int()` of a token: an accepted text is non-empty, and a negative value comes from a leading `-`; `ParseIntOfDecimal`, `ParseIntAccepts` and `ParseIntRejects` state the grammar |
| Extract.ParseIntOfDecimal | create_aws_resources.py:31 | `int()` of a number's decimal text gives the number back |
| Extract.ParseIntAccepts | create_aws_resources.py:37 | `5_439` parses to 5439 and `+4` to 4: single underscores between digits and a leading sign are accepted |
| Extract.ParseIntRejects | create_aws_resources.py:37 | a doubled or leading underscore and a bare sign are refused |
| Extract.ReadSetting | create_aws_resources.py:30-38 | one setting fails exactly when the split is empty, or when a numeric setting is missing or not an integer; otherwise it carries the looked-up value or its `int` |
| Extract.ReadAll | create_aws_resources.py:30-38 | the settings load exactly when every key reads; each value is its key's reading; the error is the one of the first key that fails |
| Extract.LoadSettings | create_aws_resources.py:30-38 | the nine settings load exactly when every key reads, in the script's order; otherwise the error is that of the first failing key |
| Extract.LoadedSettings | create_aws_resources.py:30-38 | each of the nine loaded settings is its key's extracted value; the node count and the port are `int` of their extracted tokens |
| TemplateSubst.IdRun | create_aws_resources.py:150-153 | the identifier run ends at the end of the text or at a character that cannot be in a name |
| TemplateSubst.Classify | create_aws_resources.py:150-153 | which alternative matches at a `$`: an escape needs a second `$`; a named placeholder takes at least two characters and no more than the text |
| TemplateSubst.Step | create_aws_resources.py:150-153 | one step of the scan takes at least one character and no more than the text |
| TemplateSubst.Substitute | create_aws_resources.py:150-153 | `substitute` with a mapping: each step's replacement in order, up to the first error; `NoDollarUnchanged`, `SubstAppend`, `SubstituteErrors` and the placeholder lemmas below state what it does |
| TemplateSubst.ClassifyNamed | create_aws_resources.py:150-153 | a named placeholder is `$name`, ending where the name cannot go on, or `${name}` closed by `}`, with `name` an identifier |
| TemplateSubst.NoDollarUnchanged | create_aws_resources.py:150-153 | text without `$` comes back unchanged, whatever the mapping |
| TemplateSubst.SubstAppend | create_aws_resources.py:150-153 | substituting a text split after a newline is substituting each part; the first part's error wins |
| TemplateSubst.SubstituteErrors | create_aws_resources.py:150-153 | only a `$` can raise; a `KeyError` names an identifier that the mapping lacks |
| TemplateSubst.BracedPlaceholder | create_aws_resources.py:150-153 | `${name}` between `$`-free text is replaced by the name's value, verbatim |
| TemplateSubst.UnbracedPlaceholder | create_aws_resources.py:150-153 | `$name` followed by a non-identifier character is replaced by the name's value |
| TemplateSubst.EscapedDollar | create_aws_resources.py:150-153 | `$$` between `$`-free text comes out as a single `$` |
| TemplateSubst.InvalidAfterDollar | create_aws_resources.py:150-153 | a `$` before a digit raises `ValueError` |
| TemplateSubst.FirstErrorRaised | create_aws_resources.py:150-153 | when both a missing name and an invalid `$` occur, the earlier one is raised |
| ConfigWriter.Values | create_aws_resources.py:150-153 | the mapping has exactly the two names, bound to the endpoint and the ARN |
| ConfigWriter.Fill | create_aws_resources.py:150-153 | the fill can only raise at a `$`, and never a `KeyError` for `redshift_host` or `iam_role_arn` |
| ConfigWriter.Validate | create_aws_resources.py:159-163 | passes exactly when none of `${`, `redshift_host`, `iam_role_arn` occurs; a later error implies the earlier checks passed |
| ConfigWriter.WriteConfig | create_aws_resources.py:150-163 | if substitution raises, the file is untouched; otherwise the file holds the filled text, and the result is the validation's verdict on it |
| ConfigWriter.FillHostLine | create_aws_resources.py:150-153 | `HOST=${redshift_host}\n` fills to `HOST=` + endpoint + newline, for any endpoint |
| ConfigWriter.FillRoleLine | create_aws_resources.py:150-153 | `IAM_ROLE_ARN=${iam_role_arn}\n` fills to `IAM_ROLE_ARN=` + ARN + newline, for any ARN |
| ConfigWriter.FillJoin | create_aws_resources.py:150-153 | a text of template lines and `$`-free lines is filled line by line |
| ConfigWriter.ResetFilledLine | utils.py:13-18 | resetting a filled line gives back the line it was filled from |
| ConfigWriter.RoundTrip | create_aws_resources.py:20-156 | for a file whose lines other than `HOST=` and `IAM_ROLE_ARN=` lines hold no `$`, and values without a newline: after the reset, the fill succeeds and gives the reset lines with the two template lines completed; resetting the written file gives back the reset file exactly |
| ConfigWriter.FilledRoleLineClean | create_aws_resources.py:161-163 | the filled `IAM_ROLE_ARN=` line passes validation when the ARN does; the upper-case key is not `iam_role_arn` |
| ConfigWriter.ValidateLines | create_aws_resources.py:159-163 | lines that each pass validation pass it together |
| ConfigWriter.ValidateAfterFill | create_aws_resources.py:150-163 | if the other lines and both values hold none of the three patterns, the written text passes validation |
| ConfigWriter.ValidateRejectsTemplate | create_aws_resources.py:159-161 | a reset text with a `HOST=` or `IAM_ROLE_ARN=` line fails the first check |
| Provision.CreateIamRole | create_aws_resources.py:53-82 | a create error other than `EntityAlreadyExists` aborts with only the create issued; otherwise the policy attach is issued, and its error aborts; otherwise the ARN lookup is issued and its reply is the ARN |
| Provision.CreateRedshiftCluster | create_aws_resources.py:84-99 | one create request; the step fails only on an exception that is not a `ClientError` |
| Provision.FirstStop | create_aws_resources.py:103-113 | every reply before it keeps the loop waiting, and the one at it ends the loop |
| Provision.WaitForCluster | create_aws_resources.py:101-113 | the loop ends at the first reply that is `available`, a non-"not found" error, an empty list (`IndexError`) or a descriptor without a status (`KeyError`); on `available` the descriptor is that reply's; before it, each round is one describe and one 30-second sleep |
| Provision.WaitsCounts | create_aws_resources.py:103-113 | `n` waiting rounds issue `n` describes and `n` sleeps |
| Provision.PollCounts | create_aws_resources.py:103-113 | with the first `available` at index `k`, the loop stops there after `k + 1` describes and `k` sleeps |
| Provision.OpenRule | create_aws_resources.py:136-142 | the rule names the group, `0.0.0.0/0`, `TCP`, and the database port as both ends |
| Provision.OpenPort | create_aws_resources.py:127-147 | an empty group list raises the escaping exception; otherwise the rule goes to the first group; only a `ClientError` whose text contains `InvalidPermission.Duplicate` is swallowed |
| Provision.ClusterRequest | create_aws_resources.py:87-97 | the cluster type, node type, node count, database name, identifier, user and password are the settings; the role ARN is the only role; the cluster is public |
| Provision.StartCluster | create_aws_resources.py:53-99 | Steps 2–3 go on to the loop exactly when the role creation is tolerated, the attach and ARN lookup succeed and cluster creation succeeds or raises a `ClientError`, having made the four calls of `StartTrace`; otherwise the first untolerated reply is raised after the calls up to it |
| Provision.AwaitAndOpen | create_aws_resources.py:101-147 | Steps 4–5 complete exactly when the loop sees `available` with an endpoint and a VPC and the ingress succeeds or is tolerated, with the calls of `SuccessTrace`; otherwise the run is still polling after every reply kept it waiting, or raises the ending reply's error (`IndexError`, `KeyError`), a `KeyError` for a missing endpoint or VPC, or Step 5's exception, with the calls up to it |
| Provision.RunCloudSteps | create_aws_resources.py:53-147 | Steps 2–5 complete exactly when the role creation is tolerated, the attach and ARN lookup succeed, cluster creation succeeds or raises a `ClientError`, the loop sees `available` with an endpoint and a VPC, and the ingress succeeds or is tolerated; a completed run made exactly the calls of `SuccessTrace` and carries the ARN and that endpoint; every other run stops as `StopsAsScripted` says: the exception of the first failing step and the calls up to it, or still polling only after Steps 2–3 passed and every reply kept the loop waiting |
| Provision.StopsDetermined | create_aws_resources.py:53-147 | on replies that do not reach Step 6, the stop conditions fix the outcome and the calls made uniquely |
| Provision.CreateResources | create_aws_resources.py:20-163 | bad settings abort before any request; with good settings the run reaches Step 6 exactly when the replies let Steps 2–5 succeed, having made exactly the calls of `SuccessTrace`; until Step 6 the file holds the reset text; a failed fill leaves the reset text and a failed validation leaves the filled text; a completed run's file holds the validated fill of the reset text with the endpoint of the first `available` reply and the looked-up ARN; a run that stops in Steps 2–5 stops as `StopsAsScripted` says; for a file whose lines other than the key lines hold no `$` and values without a newline, resetting the written file gives the reset text back |

## Left out

- `delete_aws_resources.py`, `create_tables.py`, `etl.py` and `sql_queries.py` are not part of this model. They are database I/O, static SQL, and three independent delete calls.
- Credential loading and client creation (create_aws_resources.py:13-18, 41-51) are left out. The key, secret and region are passed only to the cloud library.
- Console output is left out, including the `prettyRedshiftProps` table (create_aws_resources.py:115-122).
- Time is left out: `time.sleep(30)` is recorded as a `Sleep(30)` request.
- Provision.WaitForCluster: the source loop never ends when no reply is `available`. The model takes a finite list of replies and returns `StillWaiting` once the list runs out.
- The cloud library's own argument checks are left out, such as a `None` role name sent when a key is missing. The scripted reply stands for whatever the call raises.
- Cloud-side state is left out, such as whether a role or rule already exists. It shows only through the scripted replies.
- Provision.CreateIamRole: the ARN is the scripted reply of the role lookup. The `['Role']['Arn']` indexing is not modelled.
- Extract.ExtractValue: keys are matched literally. Regular-expression metacharacters in a key are not modelled; the script's keys have none.
- Extract.ParseInt: Python's `int` also accepts non-ASCII decimal digits and surrounding whitespace. Neither can occur in a token from `split()` written in ASCII, and neither is modelled.
- TemplateSubst.SubstituteErrors: the `ValueError` text with the line and column of the invalid placeholder is not modelled. Only the kind of error is kept.
- File encoding and newline translation are not modelled: text is a sequence of characters.
