/**
 * The turn coordinator of the chat component. `Session` holds the component's
 * state; `Turn` holds the closure state of one submission (the history
 * snapshot, the accumulated output, the output flag and the timer).
 *
 * Each callback of the component is a method. Spawning a process, its output,
 * its exit, its failure and the timer firing are inputs: a spawn outcome passed
 * to `SendMessage`, and calls of `Stream`, `Done`, `Fail` and `Timeout`.
 */
module Chat {
  import opened Wrappers
  import opened Text
  import opened ToolConfig
  import Recall

  datatype Kind = User | Bot | Error | System

  /** An entry of the visible message log. */
  datatype Message = Message(kind: Kind, content: string)

  /** What `cockpit.spawn` did: it returned a process, or it threw. */
  datatype SpawnOutcome = Spawned | SpawnFailed(detail: string)

  /** The command line and the options passed to `cockpit.spawn`. */
  datatype Launch = Launch(argv: seq<string>, environ: Option<map<string, string>>)

  /** One completed exchange of the transcript. */
  datatype Exchange = Exchange(user: string, bot: string)

  /** All state fields of a session, for saying in one place which of them a handler changes. */
  datatype View = View(
    input: string,
    messages: seq<Message>,
    history: string,
    isBusy: bool,
    hasProcess: bool,
    currentResponse: string,
    commandHistory: seq<string>,
    historyIndex: int,
    tools: seq<Tool>,
    selectedTool: Option<Tool>,
    selectedToolName: string,
    configError: string)

  const NoOutputText := "No output from command"
  const TimeoutText := "Timeout - no response after 30 seconds"
  const StoppedText := "Process stopped"

  /** The line a submission adds to the history snapshot. */
  function UserLine(user: string): string {
    "USER: " + user + "\n"
  }

  /** The line a completed turn adds after its user line. */
  function BotLine(bot: string): string {
    "BOT: " + bot + "\n\n"
  }

  /** How one completed exchange is written into the history text. */
  function Block(x: Exchange): string {
    UserLine(x.user) + BotLine(x.bot)
  }

  /** The history text of a sequence of completed exchanges. */
  function Serialize(turns: seq<Exchange>): string {
    if turns == [] then "" else Serialize(turns[..|turns| - 1]) + Block(turns[|turns| - 1])
  }

  /** The history of one more completed exchange is the old history followed by that exchange. */
  lemma SerializeSnoc(turns: seq<Exchange>, x: Exchange)
    ensures Serialize(turns + [x]) == Serialize(turns) + Block(x)
  {
    assert (turns + [x])[..|turns|] == turns;
  }

  /** The submit-time prefix plus the bot line is the history with the exchange appended. */
  lemma CompletedHistory(turns: seq<Exchange>, user: string, bot: string)
    ensures Serialize(turns) + UserLine(user) + BotLine(bot) == Serialize(turns + [Exchange(user, bot)])
  {
    SerializeSnoc(turns, Exchange(user, bot));
  }

  /** What `sendMessage` hands to `cockpit.spawn`: the tool's command and arguments, then `history + input`. */
  function LaunchFor(tool: Tool, history: string, input: string): Launch {
    Launch([tool.command] + tool.args + [history + input], if |tool.env| > 0 then Some(tool.env) else None)
  }

  /** `tools.find(t => t.name === name)`. */
  function FindTool(tools: seq<Tool>, name: string): (r: Option<Tool>)
    ensures r.None? <==> forall i :: 0 <= i < |tools| ==> tools[i].name != name
    ensures r.Some? ==> exists i ::
              && 0 <= i < |tools| && tools[i] == r.value && r.value.name == name
              && (forall j :: 0 <= j < i ==> tools[j].name != name)
  {
    if tools == [] then None
    else if tools[0].name == name then Some(tools[0])
    else
      var r := FindTool(tools[1..], name);
      assert forall i :: 0 < i < |tools| ==> tools[i] == tools[1..][i - 1];
      assert r.Some? ==> exists i ::
               && 0 <= i < |tools| && tools[i] == r.value && r.value.name == name
               && (forall j :: 0 <= j < i ==> tools[j].name != name) by {
        if r.Some? {
          var i :| && 0 <= i < |tools[1..]| && tools[1..][i] == r.value && r.value.name == name
                   && (forall j :: 0 <= j < i ==> tools[1..][j].name != name);
          assert tools[i + 1] == r.value;
        }
      }
      r
  }

  /** The closure state of one submission. */
  class Turn {
    /** The transcript when the turn was submitted. */
    ghost const priorTurns: seq<Exchange>
    /** The submitted text. */
    ghost const userInput: string
    /** `history + "USER: " + input + "\n"`, snapshotted at submit. */
    const fullHistory: string
    var responseData: string
    var hasOutput: bool
    /** The 30-second timer has been set and neither fired nor been cleared. */
    var timeoutArmed: bool
    /** The output chunks delivered so far, in order. */
    ghost var chunks: seq<string>

    ghost predicate Valid()
      reads this
    {
      && fullHistory == Serialize(priorTurns) + UserLine(userInput)
      && responseData == Concat(chunks)
      && (hasOutput <==> chunks != [])
      && (timeoutArmed ==> !hasOutput)
    }

    constructor (ghost turns: seq<Exchange>, history: string, input: string)
      requires history == Serialize(turns)
      ensures Valid()
      ensures priorTurns == turns && userInput == input
      ensures fullHistory == history + UserLine(input)
      ensures responseData == "" && !hasOutput && timeoutArmed && chunks == []
    {
      priorTurns := turns;
      userInput := input;
      fullHistory := history + UserLine(input);
      responseData := "";
      hasOutput := false;
      timeoutArmed := true;
      chunks := [];
    }
  }

  /** The state of the chat component. */
  class Session {
    var input: string
    var messages: seq<Message>
    /** The transcript text handed to the next tool invocation. */
    var history: string
    var isBusy: bool
    /** `currentProcess` is set. */
    var hasProcess: bool
    /** The live output of the running turn. */
    var currentResponse: string
    /** The recall buffer: submitted inputs, oldest first, and the cursor into them. */
    var commandHistory: seq<string>
    var historyIndex: int
    var tools: seq<Tool>
    var selectedTool: Option<Tool>
    var selectedToolName: string
    /** The configuration banner; empty while there is none. */
    var configError: string
    /** The completed exchanges that `history` spells out. */
    ghost var transcript: seq<Exchange>

    ghost predicate Valid()
      reads this
    {
      && Recall.InRange(|commandHistory|, historyIndex)
      && isBusy == hasProcess
      && history == Serialize(transcript)
      && (selectedTool.Some? ==> selectedTool.value in tools && selectedToolName == selectedTool.value.name)
      && (selectedTool.None? ==> selectedToolName == "")
    }

    function Snapshot(): View
      reads this
    {
      View(input, messages, history, isBusy, hasProcess, currentResponse,
           commandHistory, historyIndex, tools, selectedTool, selectedToolName, configError)
    }

    /** A submission goes ahead: non-blank input, not busy, a tool selected. */
    predicate CanSend()
      reads this
    {
      Trim(input) != "" && !isBusy && selectedTool.Some?
    }

    /** The initial state of the component. */
    constructor ()
      ensures Valid() && transcript == []
      ensures Snapshot() == View("", [], "", false, false, "", [], -1, [], None, "", "")
    {
      input, messages, history := "", [], "";
      isBusy, hasProcess, currentResponse := false, false, "";
      commandHistory, historyIndex := [], -1;
      tools, selectedTool, selectedToolName, configError := [], None, "", "";
      transcript := [];
    }

    /** The configuration callback: set the banner, or install the tools and select the first. */
    method LoadConfig(read: ConfigRead)
      requires Valid()
      modifies this
      ensures Valid() && transcript == old(transcript)
      ensures match Load(read)
        case Failure(e) => Snapshot() == old(Snapshot()).(configError := e.Message())
        case Success(ts) => Snapshot() == old(Snapshot()).(tools := ts, selectedTool := Some(ts[0]), selectedToolName := ts[0].name)
    {
      match Load(read) {
        case Failure(e) => Banner(e.Message());
        case Success(ts) => Install(ts);
      }
    }

    /** `setConfigError`. */
    method Banner(text: string)
      requires Valid()
      modifies this
      ensures Valid() && transcript == old(transcript)
      ensures Snapshot() == old(Snapshot()).(configError := text)
    {
      configError := text;
    }

    /** The success path of the configuration callback: install the tools and select the first. */
    method Install(ts: seq<Tool>)
      requires Valid() && |ts| > 0
      modifies this
      ensures Valid() && transcript == old(transcript)
      ensures Snapshot() == old(Snapshot()).(tools := ts, selectedTool := Some(ts[0]), selectedToolName := ts[0].name)
    {
      tools, selectedTool, selectedToolName := ts, Some(ts[0]), ts[0].name;
    }

    /** The `onChange` handler of the text box. */
    method SetInput(value: string)
      requires Valid()
      modifies this
      ensures Valid() && transcript == old(transcript)
      ensures Snapshot() == old(Snapshot()).(input := value)
    {
      input := value;
    }

    /** The `onChange` handler of the tool selector: an unknown name changes nothing. */
    method SelectTool(name: string)
      requires Valid()
      modifies this
      ensures Valid() && transcript == old(transcript)
      ensures match FindTool(old(tools), name)
        case None => Snapshot() == old(Snapshot())
        case Some(t) => Snapshot() == old(Snapshot()).(selectedTool := Some(t), selectedToolName := t.name)
    {
      var found := FindTool(tools, name);
      if found.Some? {
        selectedTool := found;
        selectedToolName := found.value.name;
      }
    }

    /**
     * `sendMessage`. When the guard holds, it records the input for recall and
     * logs it. Then it launches the tool. On success it returns the new turn.
     * On a spawn failure it logs the error and keeps `input`.
     */
    method SendMessage(spawn: SpawnOutcome) returns (launch: Option<Launch>, turn: Turn?)
      requires Valid()
      modifies this
      ensures Valid() && transcript == old(transcript)
      ensures !old(CanSend()) ==> launch.None? && turn == null && Snapshot() == old(Snapshot())
      ensures old(CanSend()) ==> launch == Some(LaunchFor(old(selectedTool).value, old(history), old(input)))
      ensures old(CanSend()) && spawn.Spawned? ==>
        && turn != null && fresh(turn) && turn.Valid()
        && turn.priorTurns == old(transcript) && turn.userInput == old(input)
        && turn.fullHistory == old(history) + UserLine(old(input))
        && turn.chunks == [] && turn.timeoutArmed
        && Snapshot() == old(Snapshot()).(
             input := "",
             messages := old(messages) + [Message(User, old(input))],
             isBusy := true, hasProcess := true, currentResponse := "",
             commandHistory := old(commandHistory) + [old(input)], historyIndex := -1)
      ensures old(CanSend()) && spawn.SpawnFailed? ==>
        && turn == null
        && Snapshot() == old(Snapshot()).(
             messages := old(messages) + [Message(User, old(input)), Message(Error, "Spawn Error: " + spawn.detail)],
             isBusy := false, currentResponse := "",
             commandHistory := old(commandHistory) + [old(input)], historyIndex := -1)
    {
      if !CanSend() {
        return None, null;
      }
      var text := input;
      launch := Some(LaunchFor(selectedTool.value, history, text));
      match spawn {
        case SpawnFailed(detail) =>
          Rejected(text, detail);
          turn := null;
        case Spawned =>
          turn := new Turn(transcript, history, text);
          Started(text);
      }
    }

    /** `sendMessage` after a successful spawn: record and log `text`, hold the process, clear the prompt. */
    method Started(text: string)
      requires Valid() && !isBusy
      modifies this
      ensures Valid() && transcript == old(transcript)
      ensures Snapshot() == old(Snapshot()).(
        input := "",
        messages := old(messages) + [Message(User, text)],
        isBusy := true, hasProcess := true, currentResponse := "",
        commandHistory := old(commandHistory) + [text], historyIndex := -1)
    {
      commandHistory, historyIndex, isBusy, hasProcess := commandHistory + [text], -1, true, true;
      messages, currentResponse, input := messages + [Message(User, text)], "", "";
    }

    /** `sendMessage` when the spawn throws: record and log `text`, log the error, stay idle, keep the prompt. */
    method Rejected(text: string, detail: string)
      requires Valid() && !isBusy
      modifies this
      ensures Valid() && transcript == old(transcript)
      ensures Snapshot() == old(Snapshot()).(
        messages := old(messages) + [Message(User, text), Message(Error, "Spawn Error: " + detail)],
        isBusy := false, currentResponse := "",
        commandHistory := old(commandHistory) + [text], historyIndex := -1)
    {
      commandHistory, historyIndex, currentResponse := commandHistory + [text], -1, "";
      messages := messages + [Message(User, text), Message(Error, "Spawn Error: " + detail)];
    }

    /** `proc.stream`: append the chunk, mark the turn as having output, clear the timer. */
    method Stream(t: Turn, data: string)
      requires Valid() && t.Valid()
      modifies this, t
      ensures Valid() && t.Valid() && transcript == old(transcript)
      ensures t.chunks == old(t.chunks) + [data] && t.responseData == old(t.responseData) + data
      ensures t.hasOutput && !t.timeoutArmed
      ensures Snapshot() == old(Snapshot()).(currentResponse := t.responseData)
    {
      t.hasOutput := true;
      t.timeoutArmed := false;
      t.responseData := t.responseData + data;
      ConcatSnoc(t.chunks, data);
      t.chunks := t.chunks + [data];
      currentResponse := t.responseData;
    }

    /**
     * The common end of a turn in `proc.done`, `proc.fail`, the timer and
     * `stopProcess`: log `entry`, install the history `h`, drop the live
     * output, the busy flag and the process.
     */
    method Finish(entry: Message, h: string, ghost turns: seq<Exchange>)
      requires Valid() && h == Serialize(turns)
      modifies this
      ensures Valid() && transcript == turns
      ensures Snapshot() == old(Snapshot()).(
        messages := old(messages) + [entry], history := h, isBusy := false, hasProcess := false, currentResponse := "")
    {
      messages, history, transcript, currentResponse, isBusy, hasProcess := messages + [entry], h, turns, "", false, false;
    }

    /**
     * `proc.done`: log the output, or an error when there was none, and extend
     * the history snapshotted at submit with this exchange.
     */
    method Done(t: Turn)
      requires Valid() && t.Valid()
      modifies this, t
      ensures Valid() && t.Valid()
      ensures !t.timeoutArmed && t.chunks == old(t.chunks)
      ensures t.responseData == old(t.responseData) && t.hasOutput == old(t.hasOutput)
      ensures transcript == t.priorTurns + [Exchange(t.userInput, Concat(t.chunks))]
      ensures history == t.fullHistory + BotLine(t.responseData)
      ensures Snapshot() == old(Snapshot()).(
        messages := old(messages) + [if t.chunks == [] then Message(Error, NoOutputText) else Message(Bot, Concat(t.chunks))],
        history := history, isBusy := false, hasProcess := false, currentResponse := "")
    {
      t.timeoutArmed := false;
      var out := t.responseData;
      var entry := if !t.hasOutput && |out| == 0 then Message(Error, NoOutputText) else Message(Bot, out);
      CompletedHistory(t.priorTurns, t.userInput, out);
      Finish(entry, t.fullHistory + BotLine(out), t.priorTurns + [Exchange(t.userInput, out)]);
    }

    /** `proc.fail`: log the error; the history is not touched. */
    method Fail(t: Turn, error: string)
      requires Valid() && t.Valid()
      modifies this, t
      ensures Valid() && t.Valid() && transcript == old(transcript)
      ensures !t.timeoutArmed && t.chunks == old(t.chunks) && t.responseData == old(t.responseData)
      ensures Snapshot() == old(Snapshot()).(
        messages := old(messages) + [Message(Error, "Error: " + error)],
        isBusy := false, hasProcess := false, currentResponse := "")
    {
      t.timeoutArmed := false;
      Finish(Message(Error, "Error: " + error), history, transcript);
    }

    /** The timer callback. The timer can fire only while it is armed, so only before any output. */
    method Timeout(t: Turn)
      requires Valid() && t.Valid() && t.timeoutArmed
      modifies this, t
      ensures Valid() && t.Valid() && transcript == old(transcript)
      ensures old(t.chunks) == [] && t.chunks == [] && !t.timeoutArmed
      ensures Snapshot() == old(Snapshot()).(
        messages := old(messages) + [Message(Error, TimeoutText)],
        isBusy := false, hasProcess := false, currentResponse := "")
    {
      t.timeoutArmed := false;
      Finish(Message(Error, TimeoutText), history, transcript);
    }

    /** `stopProcess`: only acts while there is a process. */
    method Stop()
      requires Valid()
      modifies this
      ensures Valid() && transcript == old(transcript)
      ensures !old(hasProcess) ==> Snapshot() == old(Snapshot())
      ensures old(hasProcess) ==> Snapshot() == old(Snapshot()).(
        messages := old(messages) + [Message(Error, StoppedText)],
        isBusy := false, hasProcess := false, currentResponse := "")
    {
      if hasProcess {
        Finish(Message(Error, StoppedText), history, transcript);
      }
    }

    /** `showHistory`: log a delimited copy of the history. */
    method ShowHistory()
      requires Valid()
      modifies this
      ensures Valid() && transcript == old(transcript)
      ensures Snapshot() == old(Snapshot()).(
        messages := old(messages) + [Message(System, "=== HISTORY ===\n" + old(history) + "=== END HISTORY ===")])
    {
      messages := messages + [Message(System, "=== HISTORY ===\n" + history + "=== END HISTORY ===")];
    }

    /** `clearHistory`: empty history, log and live output; busy, process, tools and recall are kept. */
    method ClearHistory()
      requires Valid()
      modifies this
      ensures Valid() && transcript == []
      ensures Snapshot() == old(Snapshot()).(history := "", messages := [], currentResponse := "")
    {
      history := "";
      messages := [];
      currentResponse := "";
      transcript := [];
    }

    /** ArrowUp: recall an older input; nothing to recall on an empty buffer. */
    method ArrowUp()
      requires Valid()
      modifies this
      ensures Valid() && transcript == old(transcript)
      ensures old(commandHistory) == [] ==> Snapshot() == old(Snapshot())
      ensures old(commandHistory) != [] ==>
        var i := Recall.Up(|old(commandHistory)|, old(historyIndex));
        Snapshot() == old(Snapshot()).(historyIndex := i, input := old(commandHistory)[i])
    {
      if |commandHistory| > 0 {
        var i := Recall.Up(|commandHistory|, historyIndex);
        historyIndex := i;
        input := commandHistory[i];
      }
    }

    /** ArrowDown: recall a newer input, or return to an empty prompt past the newest. */
    method ArrowDown()
      requires Valid()
      modifies this
      ensures Valid() && transcript == old(transcript)
      ensures old(historyIndex) == -1 ==> Snapshot() == old(Snapshot())
      ensures old(historyIndex) >= 0 ==>
        var i := Recall.Down(|old(commandHistory)|, old(historyIndex));
        Snapshot() == old(Snapshot()).(historyIndex := i, input := if i == -1 then "" else old(commandHistory)[i])
    {
      if historyIndex >= 0 {
        var i := Recall.Down(|commandHistory|, historyIndex);
        historyIndex := i;
        input := if i == -1 then "" else commandHistory[i];
      }
    }
  }
}
