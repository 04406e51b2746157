/**
 * The tool registry parser: the text of `~/.cockpit-chat-tools.conf` becomes
 * either one configuration error or a non-empty list of tools. One tool per
 * non-blank, non-comment line: `name|label|command|arg...|ENV:K=v,K2=v2`.
 */
module ToolConfig {
  import opened Wrappers
  import opened Text

  datatype Tool = Tool(
    name: string,
    caption: string,  // the `label` field of the source (`label` is a Dafny keyword)
    command: string,
    args: seq<string>,
    env: map<string, string>)

  /** The banner states the loader can end in. */
  datatype ConfigError = ConfigEmpty | NoValidLines | NoValidTools | NotFound
  {
    function Message(): string {
      match this
      case ConfigEmpty => "Config file is empty. Add tools to ~/.cockpit-chat-tools.conf"
      case NoValidLines => "No valid tools in config. Check ~/.cockpit-chat-tools.conf format"
      case NoValidTools => "No valid tools parsed. Check ~/.cockpit-chat-tools.conf format"
      case NotFound => "No config found. Create ~/.cockpit-chat-tools.conf"
    }
  }

  /** What reading the file gave: a rejected read, or its content (`None` for a missing file). */
  datatype ConfigRead = ReadFailed | ReadOk(content: Option<string>)

  // ---------------------------------------------------------------- the ENV: segment

  /** A field introduces the environment segment when its trimmed text starts with `ENV:`. */
  predicate IsEnvField(field: string) {
    "ENV:" <= Trim(field)
  }

  /** `rest.findIndex(...)` for the first environment field, or -1. */
  function EnvIndex(fields: seq<string>): (r: int)
    ensures -1 <= r < |fields|
    ensures r >= 0 ==> IsEnvField(fields[r])
  {
    if fields == [] then -1
    else if IsEnvField(fields[0]) then 0
    else
      var k := EnvIndex(fields[1..]);
      if k == -1 then -1 else k + 1
  }

  /** `findIndex`: -1 exactly when no field is an `ENV:` field, and otherwise the first one. */
  lemma {:induction false} EnvIndexSpec(fields: seq<string>)
    ensures EnvIndex(fields) == -1 <==> forall i :: 0 <= i < |fields| ==> !IsEnvField(fields[i])
    ensures EnvIndex(fields) >= 0 ==> forall i :: 0 <= i < EnvIndex(fields) ==> !IsEnvField(fields[i])
  {
    if fields != [] && !IsEnvField(fields[0]) {
      EnvIndexSpec(fields[1..]);
      assert forall i :: 0 < i < |fields| ==> fields[i] == fields[1..][i - 1];
    }
  }

  /** The key of a `key=value` pair: the first piece of `pair.split('=', 2)`. */
  function PairKey(pair: string): string {
    SplitLimit(pair, '=', 2)[0]
  }

  /** The value of a pair: the second piece of `pair.split('=', 2)`, if there is one. */
  function PairValue(pair: string): Option<string> {
    var p := SplitLimit(pair, '=', 2);
    if |p| == 2 then Some(p[1]) else None
  }

  /** The `key && value` test: both raw pieces present and non-empty. */
  predicate Contributes(pair: string) {
    PairKey(pair) != "" && PairValue(pair).Some? && PairValue(pair).value != ""
  }

  /** The pair sets variable `k`. */
  predicate Sets(pair: string, k: string) {
    Contributes(pair) && Trim(PairKey(pair)) == k
  }

  /** One step of the `forEach`: `envVars[key.trim()] = value.trim()` when the pair contributes. */
  function AddPair(env: map<string, string>, pair: string): map<string, string> {
    if Contributes(pair) then env[Trim(PairKey(pair)) := Trim(PairValue(pair).value)] else env
  }

  /** The dictionary the pairs build, in order, starting from `{}`. */
  function EnvOf(pairs: seq<string>): map<string, string> {
    if pairs == [] then map[] else AddPair(EnvOf(pairs[..|pairs| - 1]), pairs[|pairs| - 1])
  }

  /** The `forEach` loop of the parser, filling the dictionary in place. */
  method BuildEnv(pairs: seq<string>) returns (env: map<string, string>)
    ensures env == EnvOf(pairs)
  {
    env := map[];
    var i := 0;
    while i < |pairs|
      invariant 0 <= i <= |pairs|
      invariant env == EnvOf(pairs[..i])
    {
      assert pairs[..i + 1][..i] == pairs[..i];
      env := AddPair(env, pairs[i]);
      i := i + 1;
    }
    assert pairs[..i] == pairs;
  }

  /** One pair defines `k` on top of `env` exactly when it sets `k`. */
  lemma AddPairKeys(env: map<string, string>, pair: string, k: string)
    ensures k in AddPair(env, pair) <==> k in env || Sets(pair, k)
  {
  }

  /** A variable is defined exactly when some pair sets it. */
  lemma {:induction false} EnvOfKeys(pairs: seq<string>, k: string)
    ensures k in EnvOf(pairs) <==> exists i :: 0 <= i < |pairs| && Sets(pairs[i], k)
  {
    if pairs != [] {
      var n := |pairs| - 1;
      var init := pairs[..n];
      assert EnvOf(pairs) == AddPair(EnvOf(init), pairs[n]);
      EnvOfKeys(init, k);
      AddPairKeys(EnvOf(init), pairs[n], k);
      if k in EnvOf(pairs) {
        if !Sets(pairs[n], k) {
          var i :| 0 <= i < |init| && Sets(init[i], k);
          assert pairs[i] == init[i];
        }
      } else {
        forall i | 0 <= i < |pairs| ensures !Sets(pairs[i], k) {
          if i < n {
            assert pairs[i] == init[i];
          }
        }
      }
    }
  }

  /** The value of a variable comes from the LAST pair that sets it: later duplicates overwrite. */
  lemma {:induction false} EnvOfLastWins(pairs: seq<string>, k: string)
    requires k in EnvOf(pairs)
    ensures exists i ::
              && 0 <= i < |pairs| && Sets(pairs[i], k)
              && EnvOf(pairs)[k] == Trim(PairValue(pairs[i]).value)
              && (forall j :: i < j < |pairs| ==> !Sets(pairs[j], k))
  {
    var n := |pairs| - 1;
    var init := pairs[..n];
    if Sets(pairs[n], k) {
      assert EnvOf(pairs)[k] == Trim(PairValue(pairs[n]).value);
    } else {
      assert k in EnvOf(init);
      EnvOfLastWins(init, k);
      var i :| 0 <= i < |init| && Sets(init[i], k)
        && EnvOf(init)[k] == Trim(PairValue(init[i]).value)
        && (forall j :: i < j < |init| ==> !Sets(init[j], k));
      assert pairs[i] == init[i];
      forall j | i < j < |pairs| ensures !Sets(pairs[j], k) {
        if j < n {
          assert pairs[j] == init[j];
        }
      }
    }
  }

  /** The variables of one `ENV:` field: the text after the tag, split on `,`; none when it is empty. */
  function EnvField(field: string): map<string, string>
    requires IsEnvField(field)
  {
    var envPart := Trim(field)[4..];
    if envPart != "" then EnvOf(Split(envPart, ',')) else map[]
  }

  /** The environment of a line: from the first `ENV:` field; none without one. */
  function EnvFor(rest: seq<string>): map<string, string> {
    var e := EnvIndex(rest);
    if e == -1 then map[] else EnvField(rest[e])
  }

  // ---------------------------------------------------------------- arguments

  /** The argument fields: the fields after the command, up to the first `ENV:` field. */
  function ArgFields(rest: seq<string>): seq<string>
  {
    var e := EnvIndex(rest);
    if e == -1 then rest else rest[..e]
  }

  /** `allArgs ? allArgs.split(/\s+/) : []` with `allArgs = fields.join(' ').trim()`. */
  function Args(fields: seq<string>): (r: seq<string>)
    ensures forall i :: 0 <= i < |r| ==> r[i] != "" && NoWs(r[i])
  {
    var all := Trim(Join(fields, " "));
    if all == "" then []
    else
      TrimSpec(Join(fields, " "));
      SplitWsNonEmpty(all);
      SplitWsNoWs(all);
      SplitWs(all)
  }

  /** The arguments hold exactly the non-white-space characters of the argument fields, in order. */
  lemma ArgsContent(fields: seq<string>)
    ensures Concat(Args(fields)) == RemoveWs(Concat(fields))
  {
    var joined := Join(fields, " ");
    var all := Trim(joined);
    TrimKeepsContent(joined);
    TrimSpec(joined);
    RemoveWsJoin(fields);
    if all == "" {
      RemoveWsOfWs(joined);
    } else {
      ConcatSplitWs(all);
    }
  }

  /**
   * `split(/\s+/)` cuts at the white space: fields that are single words are
   * those words, and one field of words separated by spaces is those words.
   */
  lemma ArgsWords(words: seq<string>)
    requires |words| >= 1
    requires forall i :: 0 <= i < |words| ==> words[i] != "" && NoWs(words[i])
    ensures Args(words) == words
    ensures Args([Join(words, " ")]) == words
  {
    var joined := Join(words, " ");
    JoinWordsEnds(words);
    assert !IsWs(words[|words| - 1][|words[|words| - 1]| - 1]);
    TrimIdle(joined);
    SplitWsJoin(words);
    assert Join([joined], " ") == joined;
  }

  /**
   * Whatever white space the argument fields carry, the arguments are the words between the
   * white-space runs of the joined, trimmed text: tabs and runs of spaces cut like one space.
   */
  lemma ArgsRuns(fields: seq<string>, words: seq<string>, seps: seq<string>)
    requires |seps| == |words| - 1
    requires forall i :: 0 <= i < |words| ==> words[i] != "" && NoWs(words[i])
    requires forall i :: 0 <= i < |seps| ==> seps[i] != "" && AllWs(seps[i])
    requires Trim(Join(fields, " ")) == Interleave(words, seps)
    ensures Args(fields) == words
  {
    SplitWsRuns(words, seps);
    assert Interleave(words, seps) != "" by {
      if |words| > 1 {
        assert Interleave(words, seps) == words[0] + seps[0] + Interleave(words[1..], seps[1..]);
      }
    }
  }

  // ---------------------------------------------------------------- lines

  /** The tool of a line that has at least three `|` fields. */
  function ToolOf(parts: seq<string>): (t: Tool)
    requires |parts| >= 3
    ensures forall i :: 0 <= i < |t.args| ==> t.args[i] != "" && NoWs(t.args[i])
  {
    var rest := parts[3..];
    Tool(Trim(parts[0]), Trim(parts[1]), Trim(parts[2]), Args(ArgFields(rest)), EnvFor(rest))
  }

  /** One configuration line: dropped (`None`) when it has fewer than three `|` fields. */
  function ParseLine(line: string): (r: Option<Tool>)
    ensures r.None? <==> |Split(line, '|')| < 3
  {
    var parts := Split(line, '|');
    if |parts| < 3 then None else Some(ToolOf(parts))
  }

  /**
   * Name, label and command are fields 0, 1 and 2, trimmed; the arguments are `Args` of the argument
   * fields, carry their content, and are those fields when each is one word; the environment is the
   * `,`-pairs of the first ENV field's text after the tag, and empty without one.
   */
  lemma ParseLineFields(line: string)
    requires |Split(line, '|')| >= 3
    ensures var parts := Split(line, '|');
      var t := ParseLine(line).value;
      && t.name == Trim(parts[0]) && t.caption == Trim(parts[1]) && t.command == Trim(parts[2])
      && t.args == Args(ArgFields(parts[3..]))
      && Concat(t.args) == RemoveWs(Concat(ArgFields(parts[3..])))
      && (EnvIndex(parts[3..]) == -1 ==> t.env == map[])
      && (EnvIndex(parts[3..]) >= 0 ==> t.env == EnvOf(Split(Trim(parts[3 + EnvIndex(parts[3..])])[4..], ',')))
    ensures var fields := ArgFields(Split(line, '|')[3..]);
      (|fields| >= 1 && forall i :: 0 <= i < |fields| ==> fields[i] != "" && NoWs(fields[i]))
      ==> ParseLine(line).value.args == fields
  {
    var parts := Split(line, '|');
    var fields := ArgFields(parts[3..]);
    ArgsContent(fields);
    var e := EnvIndex(parts[3..]);
    if e >= 0 && Trim(parts[3 + e])[4..] == "" {
      assert parts[3..][e] == parts[3 + e];
      assert Split("", ',') == [""];
      assert [""][..0] == [];
      assert !Contributes("");
    }
    if |fields| >= 1 && forall i :: 0 <= i < |fields| ==> fields[i] != "" && NoWs(fields[i]) {
      ArgsWords(fields);
    }
  }

  /** The first `ENV:` field is found from the fields up to it alone. */
  lemma {:induction false} EnvIndexPrefix(rest: seq<string>, rest': seq<string>)
    requires EnvIndex(rest) >= 0 && |rest'| > EnvIndex(rest)
    requires rest'[..EnvIndex(rest) + 1] == rest[..EnvIndex(rest) + 1]
    ensures EnvIndex(rest') == EnvIndex(rest)
  {
    var e := EnvIndex(rest);
    if e > 0 {
      assert rest'[0] == rest'[..e + 1][0];
      assert rest'[1..][..e] == rest'[..e + 1][1..];
      assert rest[1..][..e] == rest[..e + 1][1..];
      EnvIndexPrefix(rest[1..], rest'[1..]);
    } else {
      assert rest'[0] == rest'[..1][0];
    }
  }

  /** The argument fields and the environment depend only on the fields up to the first `ENV:` field. */
  lemma RestAfterEnvIgnored(rest: seq<string>, rest': seq<string>)
    requires EnvIndex(rest) >= 0 && |rest'| > EnvIndex(rest)
    requires rest'[..EnvIndex(rest) + 1] == rest[..EnvIndex(rest) + 1]
    ensures ArgFields(rest') == ArgFields(rest) && EnvFor(rest') == EnvFor(rest)
  {
    var e := EnvIndex(rest);
    EnvIndexPrefix(rest, rest');
    assert rest'[e] == rest'[..e + 1][e] == rest[e];
    assert rest'[..e] == rest'[..e + 1][..e] == rest[..e];
  }

  /** Fields after the first `ENV:` field do not matter. */
  lemma FieldsAfterEnvIgnored(parts: seq<string>, parts': seq<string>)
    requires |parts| >= 3 && |parts'| >= 3
    requires EnvIndex(parts[3..]) >= 0 && |parts'| >= 4 + EnvIndex(parts[3..])
    requires parts'[..4 + EnvIndex(parts[3..])] == parts[..4 + EnvIndex(parts[3..])]
    ensures ToolOf(parts') == ToolOf(parts)
  {
    var e := EnvIndex(parts[3..]);
    assert parts'[3..][..e + 1] == parts'[..4 + e][3..];
    assert parts[3..][..e + 1] == parts[..4 + e][3..];
    RestAfterEnvIgnored(parts[3..], parts'[3..]);
    assert parts'[0] == parts'[..4 + e][0] && parts'[1] == parts'[..4 + e][1] && parts'[2] == parts'[..4 + e][2];
  }

  /** A line the loader keeps: something besides white space, and not a `#` comment. */
  predicate IsToolLine(line: string) {
    var t := Trim(line);
    t != "" && t[0] != '#'
  }

  /** `lines.filter(...)` keeping the tool lines, in order. */
  function ToolLines(lines: seq<string>): seq<string> {
    if lines == [] then []
    else (if IsToolLine(lines[0]) then [lines[0]] else []) + ToolLines(lines[1..])
  }

  /** The filter keeps exactly the tool lines. */
  lemma {:induction false} ToolLinesMembers(lines: seq<string>, l: string)
    ensures l in ToolLines(lines) <==> l in lines && IsToolLine(l)
  {
    if lines != [] {
      ToolLinesMembers(lines[1..], l);
      assert l in lines <==> l == lines[0] || l in lines[1..];
    }
  }

  /** `lines.map(ParseLine).filter(tool => tool !== null)`. */
  function ParseLines(lines: seq<string>): seq<Tool> {
    if lines == [] then []
    else
      var here := ParseLine(lines[0]);
      (if here.Some? then [here.value] else []) + ParseLines(lines[1..])
  }

  /** The tools are exactly the tools of the lines that parse. */
  lemma {:induction false} ParseLinesMembers(lines: seq<string>, t: Tool)
    ensures t in ParseLines(lines) <==> exists l :: l in lines && ParseLine(l) == Some(t)
  {
    if lines != [] {
      ParseLinesMembers(lines[1..], t);
      assert forall l :: l in lines <==> l == lines[0] || l in lines[1..];
    }
  }

  /** The filter keeps file order: the tool lines of a concatenation are those of its parts, in turn. */
  lemma {:induction false} ToolLinesAppend(a: seq<string>, b: seq<string>)
    ensures ToolLines(a + b) == ToolLines(a) + ToolLines(b)
  {
    if a != [] {
      assert (a + b)[0] == a[0] && (a + b)[1..] == a[1..] + b;
      ToolLinesAppend(a[1..], b);
    } else {
      assert a + b == b;
    }
  }

  /** Parsing keeps file order: the tools of a concatenation are those of its parts, in turn. */
  lemma {:induction false} ParseLinesAppend(a: seq<string>, b: seq<string>)
    ensures ParseLines(a + b) == ParseLines(a) + ParseLines(b)
  {
    if a != [] {
      assert (a + b)[0] == a[0] && (a + b)[1..] == a[1..] + b;
      ParseLinesAppend(a[1..], b);
    } else {
      assert a + b == b;
    }
  }

  /** One line gives its own tool when it is a tool line that parses, and nothing otherwise. */
  lemma LoadedOfLine(l: string)
    ensures ParseLines(ToolLines([l])) == if IsToolLine(l) && ParseLine(l).Some? then [ParseLine(l).value] else []
  {
    assert [l][1..] == [];
  }

  /** The tools of earlier lines come before the tools of later lines. */
  lemma LoadedInOrder(a: seq<string>, b: seq<string>)
    ensures ParseLines(ToolLines(a + b)) == ParseLines(ToolLines(a)) + ParseLines(ToolLines(b))
  {
    ToolLinesAppend(a, b);
    ParseLinesAppend(ToolLines(a), ToolLines(b));
  }

  /** No tool comes out exactly when no line parses. */
  lemma {:induction false} ParseLinesEmpty(lines: seq<string>)
    ensures ParseLines(lines) == [] <==> forall i :: 0 <= i < |lines| ==> ParseLine(lines[i]).None?
  {
    if lines != [] {
      ParseLinesEmpty(lines[1..]);
      assert forall i :: 0 < i < |lines| ==> lines[i] == lines[1..][i - 1];
    }
  }

  /** The filter keeps nothing exactly when no line is a tool line. */
  lemma ToolLinesEmpty(lines: seq<string>)
    ensures ToolLines(lines) == [] <==> forall l :: l in lines ==> !IsToolLine(l)
  {
    var kept := ToolLines(lines);
    if kept != [] {
      ToolLinesMembers(lines, kept[0]);
    }
    forall l | l in lines && IsToolLine(l) ensures kept != [] {
      ToolLinesMembers(lines, l);
    }
  }

  /** The first tool comes from the first tool line (in file order) that has three fields. */
  lemma {:induction false} FirstTool(lines: seq<string>)
    requires ParseLines(ToolLines(lines)) != []
    ensures exists i ::
              && 0 <= i < |lines| && IsToolLine(lines[i])
              && ParseLine(lines[i]) == Some(ParseLines(ToolLines(lines))[0])
              && (forall j :: 0 <= j < i ==> !IsToolLine(lines[j]) || ParseLine(lines[j]).None?)
  {
    var tail := lines[1..];
    var kept := ToolLines(tail);
    var head := if IsToolLine(lines[0]) then [lines[0]] else [];
    assert ToolLines(lines) == head + kept;
    ParseLinesAppend(head, kept);
    if IsToolLine(lines[0]) && ParseLine(lines[0]).Some? {
      assert ParseLines(head) == [ParseLine(lines[0]).value] by {
        assert head[1..] == [];
      }
      assert ParseLines(ToolLines(lines))[0] == ParseLine(lines[0]).value;
    } else {
      assert ParseLines(head) == [] by {
        if head != [] {
          assert head[1..] == [];
        }
      }
      assert ParseLines(ToolLines(lines)) == ParseLines(kept);
      FirstTool(tail);
      var i :| 0 <= i < |tail| && IsToolLine(tail[i])
        && ParseLine(tail[i]) == Some(ParseLines(kept)[0])
        && (forall j :: 0 <= j < i ==> !IsToolLine(tail[j]) || ParseLine(tail[j]).None?);
      assert lines[i + 1] == tail[i];
      forall j | 0 <= j < i + 1 ensures !IsToolLine(lines[j]) || ParseLine(lines[j]).None? {
        if j > 0 {
          assert lines[j] == tail[j - 1];
        }
      }
      assert IsToolLine(lines[i + 1]) && ParseLine(lines[i + 1]) == Some(ParseLines(ToolLines(lines))[0]);
    }
  }


  /** The lines of the file. */
  function Lines(content: string): seq<string> {
    Split(content, '\n')
  }

  /** The parser proper, run on content that was read. */
  function ParseConfig(content: string): (r: Result<seq<Tool>, ConfigError>)
    ensures r.Success? ==> |r.value| > 0
    ensures r.Failure? ==> r.error != NotFound
  {
    if Trim(content) == "" then Failure(ConfigEmpty)
    else
      var lines := ToolLines(Lines(content));
      if |lines| == 0 then Failure(NoValidLines)
      else
        var tools := ParseLines(lines);
        if |tools| > 0 then Success(tools) else Failure(NoValidTools)
  }

  /** The whole loader: a rejected read is `NotFound`; a missing or empty file is `ConfigEmpty`. */
  function Load(read: ConfigRead): (r: Result<seq<Tool>, ConfigError>)
    ensures r.Success? ==> |r.value| > 0
    ensures r == Failure(NotFound) <==> read.ReadFailed?
  {
    match read
    case ReadFailed => Failure(NotFound)
    case ReadOk(None) => Failure(ConfigEmpty)
    case ReadOk(Some(c)) => if c == "" then Failure(ConfigEmpty) else ParseConfig(c)
  }

  // ---------------------------------------------------------------- outcomes of the parser

  /** Empty or all-white-space content, and only that, is `ConfigEmpty`. */
  lemma ParseConfigEmpty(content: string)
    ensures ParseConfig(content) == Failure(ConfigEmpty) <==> AllWs(content)
  {
    TrimSpec(content);
  }

  /** `NoValidLines` exactly when the content is not blank but every line is blank or a comment. */
  lemma ParseConfigNoLines(content: string)
    ensures ParseConfig(content) == Failure(NoValidLines)
      <==> !AllWs(content) && forall l :: l in Lines(content) ==> !IsToolLine(l)
  {
    TrimSpec(content);
    ToolLinesEmpty(Lines(content));
  }

  /** A tool line makes the content non-blank. */
  lemma ToolLineNotBlank(content: string, l: string)
    requires l in Lines(content) && IsToolLine(l)
    ensures !AllWs(content)
  {
    TrimSpec(l);
    JoinSplit(content, '\n');
    JoinNotWs(Lines(content), l);
  }

  /** `NoValidTools` exactly when there are tool lines and every one has fewer than three fields. */
  lemma ParseConfigNoTools(content: string)
    ensures ParseConfig(content) == Failure(NoValidTools)
      <==> && (exists l :: l in Lines(content) && IsToolLine(l))
           && (forall l :: l in Lines(content) && IsToolLine(l) ==> |Split(l, '|')| < 3)
  {
    TrimSpec(content);
    var all := Lines(content);
    var kept := ToolLines(all);
    ToolLinesEmpty(all);
    ParseLinesEmpty(kept);
    if exists l :: l in all && IsToolLine(l) {
      var l :| l in all && IsToolLine(l);
      ToolLineNotBlank(content, l);
    }
    forall i | 0 <= i < |kept| ensures kept[i] in all && IsToolLine(kept[i]) {
      ToolLinesMembers(all, kept[i]);
    }
    forall l | l in all && IsToolLine(l) ensures l in kept {
      ToolLinesMembers(all, l);
    }
  }

  /** Parsing succeeds exactly when some tool line has at least three fields. */
  lemma ParseConfigSucceeds(content: string)
    ensures ParseConfig(content).Success?
      <==> exists l :: l in Lines(content) && IsToolLine(l) && |Split(l, '|')| >= 3
  {
    ParseConfigNoTools(content);
    ParseConfigNoLines(content);
    ParseConfigEmpty(content);
    if exists l :: l in Lines(content) && IsToolLine(l) {
      var l :| l in Lines(content) && IsToolLine(l);
      ToolLineNotBlank(content, l);
    }
  }

  /** The tools parsed are exactly those of the tool lines with at least three fields. */
  lemma ParseConfigTools(content: string, t: Tool)
    requires ParseConfig(content).Success?
    ensures t in ParseConfig(content).value
      <==> exists l :: l in Lines(content) && IsToolLine(l) && ParseLine(l) == Some(t)
  {
    var all := Lines(content);
    var kept := ToolLines(all);
    ParseLinesMembers(kept, t);
    forall l | l in kept ensures l in all && IsToolLine(l) {
      ToolLinesMembers(all, l);
    }
    forall l | l in all && IsToolLine(l) ensures l in kept {
      ToolLinesMembers(all, l);
    }
  }

  /** The default selection is the tool of the first tool line that parses. */
  lemma ParseConfigFirst(content: string)
    requires ParseConfig(content).Success?
    ensures var lines := Lines(content);
      exists i ::
        && 0 <= i < |lines| && IsToolLine(lines[i])
        && ParseLine(lines[i]) == Some(ParseConfig(content).value[0])
        && (forall j :: 0 <= j < i ==> !IsToolLine(lines[j]) || ParseLine(lines[j]).None?)
  {
    FirstTool(Lines(content));
  }

  /** Joined text with a non-white-space line is not all white space. */
  lemma {:induction false} JoinNotWs(parts: seq<string>, l: string)
    requires l in parts && !AllWs(l)
    ensures !AllWs(Join(parts, "\n"))
  {
    var k :| 0 <= k < |l| && !IsWs(l[k]);
    if |parts| == 1 {
      assert parts[0] == l;
    } else if parts[0] == l {
      assert Join(parts, "\n")[k] == l[k];
    } else {
      assert l in parts[1..];
      JoinNotWs(parts[1..], l);
      var tail := Join(parts[1..], "\n");
      var m :| 0 <= m < |tail| && !IsWs(tail[m]);
      var whole := parts[0] + "\n" + tail;
      assert whole[|parts[0]| + 1 + m] == tail[m];
    }
  }
}
