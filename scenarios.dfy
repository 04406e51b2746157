/**
 * What the model does on concrete inputs, stated and proved: one configuration
 * line, the ENV pair rules, a field of two arguments, a first chat turn, a stop
 * followed by the still-armed timer, and recall.
 */
module Scenarios {
  import opened Wrappers
  import opened Text
  import opened ToolConfig
  import opened Chat

  const ExampleLine := "t|Label|echo|hello"
  const ExampleTool := Tool("t", "Label", "echo", ["hello"], map[])

  /** `t|Label|echo|hello` is the tool `t` running `echo hello` with no environment. */
  lemma ExampleParseLine()
    ensures ParseLine(ExampleLine) == Some(ExampleTool)
  {
    assert LineOf("t", "Label", "echo", "hello") == ExampleLine;
    assert Plain("t") && Plain("Label") && Plain("echo") && Plain("hello");
    assert !("ENV:" <= "hello") by {
      assert "hello"[0] != "ENV:"[0];
    }
    PlainLineParses("t", "Label", "echo", "hello");
  }

  /** `"a=b=c".split('=', 2)` keeps two pieces: the value is `b`. */
  lemma ExampleLimit()
    ensures PairKey("a=b=c") == "a" && PairValue("a=b=c") == Some("b")
  {
    var pieces := ["a", "b", "c"];
    assert Join(pieces, "=") == "a=b=c";
    assert forall i :: 0 <= i < |pieces| ==> '=' !in pieces[i];
    SplitJoin(pieces, '=');
  }

  /** `"k=v".split('=', 2)` for one-letter names. */
  lemma ExamplePair(k: char, v: char)
    requires k != '=' && v != '=' && !IsWs(k) && !IsWs(v)
    ensures PairKey([k, '=', v]) == [k] && PairValue([k, '=', v]) == Some([v])
    ensures AddPair(map[], [k, '=', v]) == map[[k] := [v]]
  {
    var pieces := [[k], [v]];
    assert Join(pieces, "=") == [k, '=', v];
    SplitJoin(pieces, '=');
    TrimIdle([k]);
    TrimIdle([v]);
  }

  /** The argument field `a b` is the two arguments `a` and `b`. */
  lemma ExampleArgs(a: char, b: char)
    requires !IsWs(a) && !IsWs(b)
    ensures Args([[a, ' ', b]]) == [[a], [b]]
  {
    assert Join([[a], [b]], " ") == [a, ' ', b];
    ArgsWords([[a], [b]]);
  }

  /** The argument fields ` a ` and ` <TAB>b` (as in `t|L|cmd| a | \tb`) are the two arguments `a` and `b`. */
  lemma ExampleArgsRuns(a: char, b: char)
    requires !IsWs(a) && !IsWs(b)
    ensures Args([[' ', a, ' '], [' ', '\t', b]]) == [[a], [b]]
  {
    var joined := [' ', a, ' ', ' ', ' ', '\t', b];
    assert Join([[' ', a, ' '], [' ', '\t', b]], " ") == joined;
    assert joined[1..] == [a, ' ', ' ', ' ', '\t', b];
    TrimIdle(joined[1..]);
    assert TrimStart(joined) == TrimStart(joined[1..]);
    assert Trim(joined) == Interleave([[a], [b]], [[' ', ' ', ' ', '\t']]);
    ArgsRuns([[' ', a, ' '], [' ', '\t', b]], [[a], [b]], [[' ', ' ', ' ', '\t']]);
  }

  /** A pair without `=` contributes nothing; a later duplicate key overwrites. */
  lemma ExampleEnv()
    ensures EnvOf(["a=1", "bad"]) == map["a" := "1"]
    ensures EnvOf(["a=1", "a=2"]) == map["a" := "2"]
  {
    ExamplePair('a', '1');
    ExamplePair('a', '2');
    assert ["a=1", "bad"][..1] == ["a=1"];
    assert ["a=1", "a=2"][..1] == ["a=1"];
    assert Split("bad", '=') == ["bad"] by {
      SplitJoin(["bad"], '=');
      assert Join(["bad"], "=") == "bad";
    }
    assert !Contributes("bad");
    assert EnvOf(["a=1"]) == map["a" := "1"] by {
      assert ["a=1"][..0] == [];
    }
  }

  /** A field that stands for itself: non-empty, no white space, no `|`, no line break. */
  predicate Plain(f: string) {
    f != "" && NoWs(f) && '|' !in f && '\n' !in f
  }

  /** The configuration line `name|caption|command|arg`. */
  function LineOf(name: string, caption: string, command: string, arg: string): string {
    name + "|" + caption + "|" + command + "|" + arg
  }

  /** A line of four plain fields whose last is not an `ENV:` field is a tool with one argument and no environment. */
  lemma PlainLineParses(name: string, caption: string, command: string, arg: string)
    requires Plain(name) && Plain(caption) && Plain(command) && Plain(arg) && !("ENV:" <= arg)
    ensures ParseLine(LineOf(name, caption, command, arg)) == Some(Tool(name, caption, command, [arg], map[]))
  {
    var parts := [name, caption, command, arg];
    assert Join(parts, "|") == LineOf(name, caption, command, arg) by {
      assert parts[1..] == [caption, command, arg] && parts[1..][1..] == [command, arg];
      assert parts[1..][1..][1..] == [arg];
      assert Join([command, arg], "|") == command + "|" + arg;
      assert Join([caption, command, arg], "|") == caption + "|" + command + "|" + arg;
    }
    assert forall i :: 0 <= i < |parts| ==> '|' !in parts[i];
    SplitJoin(parts, '|');
    TrimIdle(name);
    TrimIdle(caption);
    TrimIdle(command);
    TrimIdle(arg);
    assert parts[3..] == [arg];
    assert EnvIndex([arg]) == -1 by {
      assert !IsEnvField(arg);
      assert [arg][1..] == [];
    }
    assert Args([arg]) == [arg] by {
      assert Join([arg], " ") == arg;
      SplitWsWord(arg);
    }
  }

  /** A file of one such line, not a comment, loads as that one tool. */
  lemma PlainLineLoads(name: string, caption: string, command: string, arg: string)
    requires Plain(name) && Plain(caption) && Plain(command) && Plain(arg) && !("ENV:" <= arg) && name[0] != '#'
    ensures Load(ReadOk(Some(LineOf(name, caption, command, arg)))) == Success([Tool(name, caption, command, [arg], map[])])
  {
    var line := LineOf(name, caption, command, arg);
    assert '\n' !in line;
    SplitAbsent(line, '\n');
    assert line[0] == name[0] && line[|line| - 1] == arg[|arg| - 1];
    TrimIdle(line);
    assert [line][1..] == [];
    assert ToolLines([line]) == [line];
    PlainLineParses(name, caption, command, arg);
    assert ParseLines([line]) == [Tool(name, caption, command, [arg], map[])];
  }

  /** A fresh session whose configuration file holds one plain line. */
  method Configured(name: string, caption: string, command: string, arg: string) returns (s: Session)
    requires Plain(name) && Plain(caption) && Plain(command) && Plain(arg) && !("ENV:" <= arg) && name[0] != '#'
    ensures fresh(s) && s.Valid() && s.transcript == []
    ensures s.Snapshot() == View("", [], "", false, false, "", [], -1,
      [Tool(name, caption, command, [arg], map[])], Some(Tool(name, caption, command, [arg], map[])), name, "")
  {
    s := new Session();
    PlainLineLoads(name, caption, command, arg);
    s.LoadConfig(ReadOk(Some(LineOf(name, caption, command, arg))));
  }

  /** With an empty history the last argument is the bare input. */
  lemma FirstLaunch(tool: Tool, text: string)
    requires |tool.args| == 1 && tool.env == map[]
    ensures LaunchFor(tool, "", text) == Launch([tool.command, tool.args[0], text], None)
  {
    assert "" + text == text;
    assert [tool.command] + tool.args + [text] == [tool.command, tool.args[0], text];
  }

  /**
   * A first turn: the process gets the command, its argument and the bare
   * input; its one output chunk is logged; the history records the exchange.
   */
  method FirstTurn(name: string, caption: string, command: string, arg: string, text: string, out: string)
    requires Plain(name) && Plain(caption) && Plain(command) && Plain(arg) && !("ENV:" <= arg) && name[0] != '#'
    requires Plain(text)
  {
    var s := Configured(name, caption, command, arg);
    var tool := Tool(name, caption, command, [arg], map[]);
    s.SetInput(text);
    TrimIdle(text);
    var launch, t := s.SendMessage(Spawned);
    FirstLaunch(tool, text);
    assert launch == Some(Launch([command, arg, text], None));
    assert s.input == "" && s.isBusy && s.commandHistory == [text];
    s.Stream(t, out);
    assert s.currentResponse == out;
    s.Done(t);
    assert s.history == "USER: " + text + "\nBOT: " + out + "\n\n";
    assert s.messages == [Message(User, text), Message(Bot, out)];
    assert !s.isBusy && !s.hasProcess && s.currentResponse == "";
  }

  /**
   * A turn stopped before any output: `stopProcess` does not clear the timer,
   * so the timer can still fire and log a second error.
   */
  method StopThenTimeout(s: Session, text: string)
    requires s.Valid() && s.selectedTool.Some? && !s.isBusy && Plain(text)
    modifies s
  {
    s.SetInput(text);
    TrimIdle(text);
    var launch, t := s.SendMessage(Spawned);
    s.Stop();
    assert t.timeoutArmed;
    s.Timeout(t);
    assert s.messages[|s.messages| - 3..] == [Message(User, text), Message(Error, StoppedText), Message(Error, TimeoutText)];
  }

  /** Recall over two inputs whose spawns failed: up, up, up (clamped), down, down, down (a no-op at -1). */
  method RecallSequence(s: Session, a: string, b: string)
    requires s.Valid() && s.selectedTool.Some? && !s.isBusy && s.commandHistory == [] && Plain(a) && Plain(b)
    modifies s
  {
    s.SetInput(a);
    TrimIdle(a);
    var l1, t1 := s.SendMessage(SpawnFailed("x"));
    assert s.input == a;
    s.SetInput(b);
    TrimIdle(b);
    var l2, t2 := s.SendMessage(SpawnFailed("x"));
    assert s.commandHistory == [a, b];
    s.ArrowUp();
    assert s.historyIndex == 1 && s.input == b;
    s.ArrowUp();
    assert s.historyIndex == 0 && s.input == a;
    s.ArrowUp();
    assert s.historyIndex == 0 && s.input == a;
    s.ArrowDown();
    assert s.historyIndex == 1 && s.input == b;
    s.ArrowDown();
    assert s.historyIndex == -1 && s.input == "";
    s.ArrowDown();
    assert s.historyIndex == -1 && s.input == "";
  }
}
