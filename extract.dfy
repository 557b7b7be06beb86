/**
 * Step 0 of the provisioning script: `extract_value` reads one setting out of the raw
 * `dwh.cfg` text with `re.search(key + "=(.+)")`, then keeps the first whitespace-separated
 * token of the captured text; the script then loads its nine settings with it, converting
 * two of them with `int`.
 *
 * The key is matched as literal text. That is what the regular expression does for every key
 * the script uses, since those consist of capital letters and `_` only.
 */
module Extract {
  import opened Wrappers
  import opened Text

  /**
   * The pattern `key=(.+)` matches at index `i`: the key, then '=', then at least one character
   * other than a newline (`.` never matches '\n').
   */
  predicate MatchesAt(content: string, key: string, i: nat) {
    i + |key| + 1 < |content| && content[i..i + |key|] == key && content[i + |key|] == '=' &&
    content[i + |key| + 1] != '\n'
  }

  /** The leftmost index at or after `from` where the pattern matches, as `re.search` scans. */
  function FirstMatch(content: string, key: string, from: nat): (r: Option<nat>)
    requires from <= |content|
    ensures r.None? ==> forall i: nat :: from <= i ==> !MatchesAt(content, key, i)
    ensures r.Some? ==> from <= r.value && MatchesAt(content, key, r.value)
    ensures r.Some? ==> forall i: nat :: from <= i < r.value ==> !MatchesAt(content, key, i)
    decreases |content| - from
  {
    if from == |content| then None
    else if MatchesAt(content, key, from) then Some(from)
    else FirstMatch(content, key, from + 1)
  }

  /** Where the greedy `.+` stops: the first '\n' at or after `from`, or the end of the text. */
  function LineEnd(s: string, from: nat): (j: nat)
    requires from <= |s|
    ensures from <= j <= |s| && (j == |s| || s[j] == '\n')
    ensures forall k :: from <= k < j ==> s[k] != '\n'
    decreases |s| - from
  {
    if from == |s| || s[from] == '\n' then from else LineEnd(s, from + 1)
  }

  /** `g` sits at `start` and runs to the end of its line: the next character is '\n' or there is none. */
  predicate RestOfLineAt(content: string, start: nat, g: string) {
    start + |g| <= |content| && content[start..start + |g|] == g &&
    (start + |g| == |content| || content[start + |g|] == '\n')
  }

  /** `match.group(1)` for a match at `i`: the rest of that line after `key=`. */
  function Captured(content: string, key: string, i: nat): (g: string)
    requires MatchesAt(content, key, i)
    ensures i + |key| + 1 + |g| <= |content|
    ensures g != [] && '\n' !in g
    ensures content[i..i + |key| + 1 + |g|] == key + "=" + g
    ensures i + |key| + 1 + |g| == |content| || content[i + |key| + 1 + |g|] == '\n'
    ensures RestOfLineAt(content, i + |key| + 1, g)
  {
    var start := i + |key| + 1;
    var g := content[start..LineEnd(content, start)];
    assert content[i..start + |g|] == content[i..i + |key|] + [content[i + |key|]] + g;
    g
  }

  /** `re.search(key + "=(.+)", content)`, reduced to the captured group of its match, if any. */
  function Search(content: string, key: string): (m: Option<string>)
    ensures m.None? <==> forall i: nat :: !MatchesAt(content, key, i)
    ensures m.Some? ==> m.value != [] && '\n' !in m.value && Contains(content, key + "=" + m.value)
    ensures m.Some? ==> exists i: nat ::
      MatchesAt(content, key, i) && (forall j: nat :: j < i ==> !MatchesAt(content, key, j)) &&
      RestOfLineAt(content, i + |key| + 1, m.value)
  {
    match FirstMatch(content, key, 0)
    case None => None
    case Some(i) =>
      var g := Captured(content, key, i);
      assert OccursAt(content, key + "=" + g, i);
      assert MatchesAt(content, key, i) && RestOfLineAt(content, i + |key| + 1, g);
      Some(g)
  }

  /** What `extract_value` yields: no match (None), a token, or the `IndexError` of an empty `split()`. */
  datatype Lookup = Missing | Found(value: string) | NoToken

  /** `extract_value(content, key)`: the first token of the captured text. */
  function ExtractValue(content: string, key: string): (r: Lookup)
    ensures r.Missing? <==> forall i: nat :: !MatchesAt(content, key, i)
  {
    match Search(content, key)
    case None => Missing
    case Some(g) =>
      var words := Split(Strip(g));
      if words == [] then NoToken else Found(words[0])
  }

  /** The token is the first word of the captured text `g`: only whitespace before it, whitespace or the end after it. */
  lemma ExtractFound(content: string, key: string, g: string)
    requires Search(content, key) == Some(g) && ExtractValue(content, key).Found?
    ensures FirstWordAt(g, |g| - |LStrip(g)|, ExtractValue(content, key).value)
  {
    var v := ExtractValue(content, key).value;
    assert Split(Strip(g)) != [] && v == Split(Strip(g))[0];
    FirstWordOfStripped(g, v);
  }

  /** `split()` comes back empty, and indexing it raises, exactly when the captured text is all whitespace. */
  lemma ExtractNoToken(content: string, key: string)
    ensures ExtractValue(content, key).NoToken? <==> Search(content, key).Some? && AllSpace(Search(content, key).value)
  {
    if Search(content, key).Some? {
      SplitOfStrip(Search(content, key).value);
    }
  }

  /** A value `extract_value` returns is a single non-empty token without whitespace. */
  lemma FoundIsToken(content: string, key: string)
    requires ExtractValue(content, key).Found?
    ensures ExtractValue(content, key).value != []
    ensures NoSpace(ExtractValue(content, key).value)
  {
    ExtractFound(content, key, Search(content, key).value);
  }

  /** A mismatch inside the key rules out a match at `i`. */
  lemma NoMatchAt(content: string, key: string, i: nat, d: nat)
    requires d < |key| && i + d < |content| && content[i + d] != key[d]
    ensures !MatchesAt(content, key, i)
  {
    if i + |key| <= |content| {
      assert content[i..i + |key|][d] == content[i + d];
    }
  }

  /** `FirstMatch` finds the first index where the pattern matches. */
  lemma {:induction false} FirstMatchIs(content: string, key: string, from: nat, j: nat)
    requires from <= j && MatchesAt(content, key, j)
    requires forall i: nat :: from <= i < j ==> !MatchesAt(content, key, i)
    ensures FirstMatch(content, key, from) == Some(j)
    decreases j - from
  {
    if from < j {
      FirstMatchIs(content, key, from + 1, j);
    }
  }

  /** The captured text is the line's rest after `key=`. */
  lemma CapturedIs(content: string, key: string, i: nat, g: string)
    requires MatchesAt(content, key, i) && '\n' !in g
    requires i + |key| + 1 + |g| <= |content| && content[i + |key| + 1..i + |key| + 1 + |g|] == g
    requires i + |key| + 1 + |g| == |content| || content[i + |key| + 1 + |g|] == '\n'
    ensures Captured(content, key, i) == g
  {
    var c := Captured(content, key, i);
    var start := i + |key| + 1;
    assert content[start..start + |c|] == c by {
      assert content[i..start + |c|][|key| + 1..] == c;
    }
    if |c| != |g| {
      assert false;
    }
  }

  /** A line `key=g` inside the text, followed by a newline or the end, is a match capturing `g`. */
  lemma CapturedLine(pre: string, key: string, g: string, post: string)
    requires g != [] && '\n' !in g && (post == [] || post[0] == '\n')
    ensures var c := pre + key + "=" + g + post;
      MatchesAt(c, key, |pre|) && Captured(c, key, |pre|) == g
  {
    var c := pre + key + "=" + g + post;
    var i := |pre|;
    assert c[i..i + |key|] == key;
    assert c[i + |key|] == '=';
    assert c[i + |key| + 1] == g[0];
    assert c[i + |key| + 1..i + |key| + 1 + |g|] == g;
    if post != [] {
      assert c[i + |key| + 1 + |g|] == post[0];
    }
    CapturedIs(c, key, i, g);
  }

  /** A text without whitespace splits into itself. */
  lemma {:induction false} SplitOfToken(w: string)
    requires w != [] && NoSpace(w)
    ensures Strip(w) == w && Split(w) == [w]
  {
    assert LeadingWord(w) == w by { LeadingWordOfToken(w); }
    assert w[|w|..] == [];
  }

  lemma {:induction false} LeadingWordOfToken(w: string)
    requires NoSpace(w)
    ensures LeadingWord(w) == w
  {
    if w != [] {
      LeadingWordOfToken(w[1..]);
      assert [w[0]] + w[1..] == w;
    }
  }

  /** A captured token without whitespace is what `extract_value` returns. */
  lemma ExtractOfToken(content: string, key: string, w: string)
    requires Search(content, key) == Some(w) && NoSpace(w)
    ensures ExtractValue(content, key) == Found(w)
  {
    SplitOfToken(w);
  }

  const EmptyThenSet := "DB=\nDB=dwh\n"

  /** In `EmptyThenSet` the first `DB=` has nothing after it, so the search finds the second line. */
  lemma EmptyThenSetSearch()
    ensures Search(EmptyThenSet, "DB") == Some("dwh")
  {
    var c, k := EmptyThenSet, "DB";
    assert !MatchesAt(c, k, 0);
    NoMatchAt(c, k, 1, 0);
    NoMatchAt(c, k, 2, 0);
    NoMatchAt(c, k, 3, 0);
    CapturedLine("DB=\n", k, "dwh", "\n");
    assert c == "DB=\n" + k + "=" + "dwh" + "\n";
    FirstMatchIs(c, k, 0, 4);
  }

  lemma DwhIsToken()
    ensures NoSpace("dwh")
  {
    var w := "dwh";
    assert |w| == 3 && w[0] == 'd' && w[1] == 'w' && w[2] == 'h';
    forall i | 0 <= i < |w| ensures !IsSpace(w[i]) {
      assert 'a' <= w[i] <= 'z';
    }
  }

  /** A `key=` with nothing after it on its line is no match: the search goes on to the next occurrence. */
  lemma EmptyAssignmentSkipped()
    ensures ExtractValue(EmptyThenSet, "DB") == Found("dwh")
  {
    EmptyThenSetSearch();
    DwhIsToken();
    ExtractOfToken(EmptyThenSet, "DB", "dwh");
  }

  const BlankThenSet := "DB= \t\nDB=dwh\n"

  /** Blanks after `key=` do match; `split()` of them is empty, so the lookup fails instead of going on. */
  lemma BlankAssignmentFails()
    ensures ExtractValue(BlankThenSet, "DB") == NoToken
  {
    var c, k := BlankThenSet, "DB";
    CapturedLine([], k, " \t", "\nDB=dwh\n");
    assert c == [] + k + "=" + " \t" + "\nDB=dwh\n";
    FirstMatchIs(c, k, 0, 0);
    assert Search(c, k) == Some(" \t");
    assert AllSpace(" \t") by {
      assert IsSpace(' ') && IsSpace('\t');
    }
    ExtractNoToken(c, k);
  }

  const PrefixedKey := "XDB=1\nDB=2\n"

  /** The match is not anchored to the start of a line: a longer key that ends in `key` is found first. */
  lemma MatchIsUnanchored()
    ensures ExtractValue(PrefixedKey, "DB") == Found("1")
  {
    var c, k := PrefixedKey, "DB";
    NoMatchAt(c, k, 0, 0);
    CapturedLine("X", k, "1", "\nDB=2\n");
    assert c == "X" + k + "=" + "1" + "\nDB=2\n";
    FirstMatchIs(c, k, 0, 1);
    ExtractOfToken(c, k, "1");
  }

  predicate IsDigit(c: char) {
    '0' <= c <= '9'
  }

  /** Decimal digits with single underscores allowed between them, as `int` accepts. */
  predicate IsDigitRun(s: string) {
    s != [] && forall i :: 0 <= i < |s| ==> IsDigit(s[i]) || (s[i] == '_' && 0 < i < |s| - 1 && IsDigit(s[i + 1]))
  }

  /** The number the digits of `s` spell, underscores skipped. */
  function DigitsValue(s: string): nat {
    if s == [] then 0
    else if IsDigit(s[|s| - 1]) then DigitsValue(s[..|s| - 1]) * 10 + (s[|s| - 1] - '0') as nat
    else DigitsValue(s[..|s| - 1])
  }

  /** `int(token)` for a token without whitespace: an optional sign, then a digit run; None where `int` raises `ValueError`. */
  function ParseInt(s: string): (r: Option<int>)
    ensures r.Some? ==> s != []
    ensures r.Some? && r.value < 0 ==> s[0] == '-'
  {
    if s != [] && (s[0] == '+' || s[0] == '-') then
      if IsDigitRun(s[1..]) then Some(if s[0] == '-' then -(DigitsValue(s[1..]) as int) else DigitsValue(s[1..])) else None
    else if IsDigitRun(s) then Some(DigitsValue(s)) else None
  }

  /** The decimal digits of `n`, without leading zeros. */
  function NatDigits(n: nat): (s: string)
    ensures s != [] && forall i :: 0 <= i < |s| ==> IsDigit(s[i])
  {
    if n < 10 then ['0' + n as char] else NatDigits(n / 10) + ['0' + (n % 10) as char]
  }

  /** `str(n)`. */
  function Decimal(n: int): string {
    if n < 0 then "-" + NatDigits(-n) else NatDigits(n)
  }

  lemma {:induction false} DigitsValueOfNatDigits(n: nat)
    ensures DigitsValue(NatDigits(n)) == n
  {
    if n >= 10 {
      DigitsValueOfNatDigits(n / 10);
      var s := NatDigits(n);
      assert s[..|s| - 1] == NatDigits(n / 10);
    }
  }

  /** `int(str(n)) == n`: reading back a written integer gives the integer. */
  lemma ParseIntOfDecimal(n: int)
    ensures ParseInt(Decimal(n)) == Some(n)
  {
    var m: nat := if n < 0 then -n else n;
    var s := NatDigits(m);
    DigitsValueOfNatDigits(m);
    assert IsDigitRun(s);
    assert s[0] != '+' && s[0] != '-' by {
      assert IsDigit(s[0]);
    }
    if n < 0 {
      assert ("-" + s)[1..] == s;
    }
  }

  /** Appending a character adds a digit to the value, or nothing for an underscore. */
  lemma DigitsValueSnoc(s: string, c: char)
    ensures DigitsValue(s + [c]) == if IsDigit(c) then DigitsValue(s) * 10 + (c - '0') as nat else DigitsValue(s)
  {
    assert (s + [c])[..|s|] == s;
  }

  /** `int` accepts underscores between digits and a leading sign. */
  lemma ParseIntAccepts()
    ensures ParseInt("5_439") == Some(5439)
    ensures ParseInt("+4") == Some(4)
  {
    var t: string := "5_439";
    assert t == ['5'] + ['_'] + ['4'] + ['3'] + ['9'];
    assert DigitsValue(['5']) == 5 by {
      assert ['5'][..0] == [];
    }
    DigitsValueSnoc(['5'], '_');
    DigitsValueSnoc(['5'] + ['_'], '4');
    DigitsValueSnoc(['5'] + ['_'] + ['4'], '3');
    DigitsValueSnoc(['5'] + ['_'] + ['4'] + ['3'], '9');
    assert IsDigitRun(t) by {
      forall i | 0 <= i < |t| ensures IsDigit(t[i]) || (t[i] == '_' && 0 < i < |t| - 1 && IsDigit(t[i + 1])) {
        if i == 1 {
          assert t[2] == '4';
        }
      }
    }
    assert "+4"[1..] == ['4'];
    assert DigitsValue(['4']) == 4 by {
      assert ['4'][..0] == [];
    }
  }

  /** `int` rejects doubled or leading underscores and a sign without digits. */
  lemma ParseIntRejects()
    ensures ParseInt("5__439") == None && ParseInt("_5") == None && ParseInt("-") == None
  {
    assert !IsDigitRun("5__439") by { assert "5__439"[1] == '_' && !IsDigit("5__439"[2]); }
  }

  /** Why loading a setting aborts the script: `IndexError` from an empty `split()`, or `int` refusing its argument. */
  datatype LoadError = NoTokenFor(key: string) | NotAnInteger(key: string, token: Option<string>)

  /** A setting as the script holds it: text (`None` when the key is missing) or a number from `int`. */
  datatype SettingValue = Text(text: Option<string>) | Number(number: int)

  /**
   * One assignment of Step 0: `extract_value(content, key)`, passed through `int` when `numeric`.
   * `int(None)` raises `TypeError` and `int` of a non-number `ValueError`; both abort.
   */
  function ReadSetting(content: string, key: string, numeric: bool): (r: Result<SettingValue, LoadError>)
    ensures r.Ok? ==> (r.value.Number? <==> numeric)
    ensures r.Err? <==> (ExtractValue(content, key).NoToken? ||
      (numeric && (ExtractValue(content, key).Missing? || ParseInt(ExtractValue(content, key).value).None?)))
    ensures r.Ok? && numeric ==> ParseInt(ExtractValue(content, key).value) == Some(r.value.number)
    ensures r.Ok? && !numeric ==> ExtractValue(content, key) == OptionLookup(r.value.text)
  {
    match ExtractValue(content, key)
    case NoToken => Err(NoTokenFor(key))
    case Missing => if numeric then Err(NotAnInteger(key, None)) else Ok(Text(None))
    case Found(v) =>
      if !numeric then Ok(Text(Some(v)))
      else match ParseInt(v)
        case None => Err(NotAnInteger(key, Some(v)))
        case Some(n) => Ok(Number(n))
  }

  /** A text setting as `extract_value` gave it. */
  function OptionLookup(v: Option<string>): Lookup {
    if v.Some? then Found(v.value) else Missing
  }

  /** A key to read and whether `int` converts it. */
  datatype SettingKey = SettingKey(name: string, numeric: bool)

  /** The index of the first key in `keys` whose reading aborts; `|keys|` if none does. */
  function FirstFailing(content: string, keys: seq<SettingKey>): (f: nat)
    ensures f <= |keys|
    ensures forall i :: 0 <= i < f ==> Reads(content, keys[i])
    ensures f < |keys| ==> !Reads(content, keys[f])
  {
    if keys == [] then 0
    else if !Reads(content, keys[0]) then 0
    else
      var f := FirstFailing(content, keys[1..]);
      assert forall i :: 1 <= i <= f ==> Reads(content, keys[i]) by {
        forall i | 1 <= i <= f ensures Reads(content, keys[i]) {
          assert keys[i] == keys[1..][i - 1];
        }
      }
      1 + f
  }

  /** Reading the setting `k` does not abort the script. */
  predicate Reads(content: string, k: SettingKey) {
    ReadSetting(content, k.name, k.numeric).Ok?
  }

  /** The assignments of Step 0 in order: every value, or the error of the first that aborts; later keys are not read. */
  function ReadAll(content: string, keys: seq<SettingKey>): (r: Result<seq<SettingValue>, LoadError>)
    ensures r.Ok? <==> FirstFailing(content, keys) == |keys|
    ensures r.Ok? ==> |r.value| == |keys|
    ensures r.Ok? ==> forall i :: 0 <= i < |keys| ==> ReadSetting(content, keys[i].name, keys[i].numeric) == Ok(r.value[i])
    ensures r.Err? ==> ReadSetting(content, keys[FirstFailing(content, keys)].name,
      keys[FirstFailing(content, keys)].numeric) == Err(r.error)
  {
    if keys == [] then Ok([])
    else
      var v :- ReadSetting(content, keys[0].name, keys[0].numeric);
      var vs :- ReadAll(content, keys[1..]);
      Ok([v] + vs)
  }

  datatype Settings = Settings(
    clusterType: Option<string>,
    numNodes: int,
    nodeType: Option<string>,
    clusterIdentifier: Option<string>,
    db: Option<string>,
    dbUser: Option<string>,
    dbPassword: Option<string>,
    port: int,
    iamRoleName: Option<string>)

  /** The keys the script reads, in the order it reads them. */
  const SettingKeys: seq<SettingKey> := [
    SettingKey("DWH_CLUSTER_TYPE", false), SettingKey("DWH_NUM_NODES", true), SettingKey("DWH_NODE_TYPE", false),
    SettingKey("DWH_CLUSTER_IDENTIFIER", false), SettingKey("DWH_DB", false), SettingKey("DWH_DB_USER", false),
    SettingKey("DWH_DB_PASSWORD", false), SettingKey("DWH_PORT", true), SettingKey("DWH_IAM_ROLE_NAME", false)]

  /** Step 0: the nine settings, read one after another; the first one that fails aborts the script. */
  function LoadSettings(content: string): (r: Result<Settings, LoadError>)
    ensures r.Ok? <==> FirstFailing(content, SettingKeys) == |SettingKeys|
    ensures r.Err? ==> ReadSetting(content, SettingKeys[FirstFailing(content, SettingKeys)].name,
      SettingKeys[FirstFailing(content, SettingKeys)].numeric) == Err(r.error)
  {
    var vs :- ReadAll(content, SettingKeys);
    Ok(Settings(TextOf(vs[0]), NumberOf(vs[1]), TextOf(vs[2]), TextOf(vs[3]), TextOf(vs[4]), TextOf(vs[5]),
      TextOf(vs[6]), NumberOf(vs[7]), TextOf(vs[8])))
  }

  function TextOf(v: SettingValue): Option<string> {
    if v.Text? then v.text else None
  }

  function NumberOf(v: SettingValue): int {
    if v.Number? then v.number else 0
  }

  /** Each loaded setting is what `extract_value` gave for its key, through `int` for the two numeric ones. */
  lemma LoadedSettings(content: string)
    requires LoadSettings(content).Ok?
    ensures var s := LoadSettings(content).value;
      ExtractValue(content, "DWH_CLUSTER_TYPE") == OptionLookup(s.clusterType) &&
      ParseInt(ExtractValue(content, "DWH_NUM_NODES").value) == Some(s.numNodes) &&
      ExtractValue(content, "DWH_NODE_TYPE") == OptionLookup(s.nodeType) &&
      ExtractValue(content, "DWH_CLUSTER_IDENTIFIER") == OptionLookup(s.clusterIdentifier) &&
      ExtractValue(content, "DWH_DB") == OptionLookup(s.db) &&
      ExtractValue(content, "DWH_DB_USER") == OptionLookup(s.dbUser) &&
      ExtractValue(content, "DWH_DB_PASSWORD") == OptionLookup(s.dbPassword) &&
      ParseInt(ExtractValue(content, "DWH_PORT").value) == Some(s.port) &&
      ExtractValue(content, "DWH_IAM_ROLE_NAME") == OptionLookup(s.iamRoleName)
  {
    var vs := ReadAll(content, SettingKeys).value;
    assert ReadSetting(content, "DWH_CLUSTER_TYPE", false) == Ok(vs[0]) by {
      assert SettingKeys[0] == SettingKey("DWH_CLUSTER_TYPE", false);
    }
    assert ReadSetting(content, "DWH_NUM_NODES", true) == Ok(vs[1]) by {
      assert SettingKeys[1] == SettingKey("DWH_NUM_NODES", true);
    }
    assert ReadSetting(content, "DWH_NODE_TYPE", false) == Ok(vs[2]) by {
      assert SettingKeys[2] == SettingKey("DWH_NODE_TYPE", false);
    }
    assert ReadSetting(content, "DWH_CLUSTER_IDENTIFIER", false) == Ok(vs[3]) by {
      assert SettingKeys[3] == SettingKey("DWH_CLUSTER_IDENTIFIER", false);
    }
    assert ReadSetting(content, "DWH_DB", false) == Ok(vs[4]) by {
      assert SettingKeys[4] == SettingKey("DWH_DB", false);
    }
    assert ReadSetting(content, "DWH_DB_USER", false) == Ok(vs[5]) by {
      assert SettingKeys[5] == SettingKey("DWH_DB_USER", false);
    }
    assert ReadSetting(content, "DWH_DB_PASSWORD", false) == Ok(vs[6]) by {
      assert SettingKeys[6] == SettingKey("DWH_DB_PASSWORD", false);
    }
    assert ReadSetting(content, "DWH_PORT", true) == Ok(vs[7]) by {
      assert SettingKeys[7] == SettingKey("DWH_PORT", true);
    }
    assert ReadSetting(content, "DWH_IAM_ROLE_NAME", false) == Ok(vs[8]) by {
      assert SettingKeys[8] == SettingKey("DWH_IAM_ROLE_NAME", false);
    }
  }
}
