# cockpit-chat: tool registry, turn coordinator and input recall

cockpit-chat is a Cockpit page, a single React component (`src/app.tsx`).
It lets a user chat with external command-line tools. Each submission starts
one process of the selected tool. The process gets the conversation so far
as its last argument. Its output streams into the page; when it exits, the
output is logged and added to the history.

This Dafny project models three parts of the component.

- **The tool registry parser** (module `ToolConfig`, lines 38-91). It reads
  `~/.cockpit-chat-tools.conf`: one tool per line, written
  `name|label|command|arg…|ENV:K=V,…`. Blank lines and `#` comments are
  skipped. A line with fewer than three `|`-fields is dropped. The first
  `ENV:` field gives the process environment, and any fields after it are
  ignored. The argument fields are joined with spaces, trimmed and split on
  white space. Every error outcome is a banner text. The JavaScript string
  operations the parser depends on are modelled in module `Text`:
  - `trim`, with the ECMAScript white-space set;
  - `split(c)`, which gives `[""]` for `""`;
  - `split('=', 2)`, which truncates rather than keeping the rest;
  - `join`;
  - `split(/\s+/)`.
- **The turn coordinator** (module `Chat`, lines 110-215 and 236-243).
  - Class `Session` holds the component's state fields. Each handler is a
    method that states its whole new state through `Snapshot()`.
  - Class `Turn` holds the closure state of one submission: the history
    snapshotted at submit, the accumulated output, the output flag and
    whether the 30-second timer is still armed.
  - Outside events are inputs to these methods:
    - the outcome of `cockpit.spawn` is a `SpawnOutcome` passed to `SendMessage`;
    - output chunks, exit, failure and the timer firing are calls of
      `Stream`, `Done`, `Fail` and `Timeout`.
  - A ghost transcript of completed exchanges is kept with
    `history == Serialize(transcript)`. Completing a turn appends exactly
    one exchange. Failing, timing out and stopping leave the transcript as
    it was.
- **The input recall buffer** (module `Recall` for the cursor arithmetic,
  `Session.ArrowUp`/`ArrowDown` for the handlers, lines 113-114 and 345-364).

Module `Scenarios` states and proves what the model does on concrete inputs:
- a one-line configuration;
- the `ENV:` pair rules;
- a field holding two arguments;
- a whole first turn;
- a stop followed by the still-armed timer;
- a recall sequence.

Behaviour of the code that the model follows:
- **Untagged input in the arguments.** The process's last argument is
  `history + input`, not `history + "USER: " + input + "\n"`. The tagged
  form is only what `proc.done` writes into the history (lines 119-121 and
  172). For a first turn with input `hi`, the code passes `hi`, and so does the model
  (`Scenarios.FirstLaunch`, `Scenarios.FirstTurn`).
- **The timer is not re-armed.** The first output chunk clears it, and
  nothing sets it again (line 159).
- **A failed spawn keeps the input.** The error path returns before
  `setInput('')` (lines 132-138, 190).
- **Stop leaves the timer armed.** `stopProcess` does not clear the turn's
  timer, so a stopped turn that had no output can still log the timeout
  error afterwards (`Scenarios.StopThenTimeout`).
- **Stale turns are not rejected.** Nothing stops a stale turn's `proc.done`
  from arriving later. Its handler then installs that turn's history
  snapshot. The methods take the `Turn` as a parameter and do not require it
  to be the session's current one.

## Model

| member | source | states |
|---|---|---|
| Text.IsWs | src/app.tsx:38 | the white-space set of `trim` and `\s`: the ECMAScript white-space and line-terminator characters (no contract; used by every trim and split lemma) |
| Text.TrimStart | src/app.tsx:38 | trimming never lengthens the string |
| Text.TrimEnd | src/app.tsx:38 | trimming never lengthens the string |
| Text.Trim | src/app.tsx:38 | trimming never lengthens the string |
| Text.TrimStartSpec | src/app.tsx:38 | `trimStart` drops exactly a white-space prefix and leaves a suffix starting with a non-white-space character |
| Text.TrimEndSpec | src/app.tsx:38 | `trimEnd` drops exactly a white-space suffix and leaves a prefix ending with a non-white-space character |
| Text.TrimSpec | src/app.tsx:38 | `s.trim() === ''` exactly when every character of `s` is white space; a non-empty trim starts and ends with non-white-space |
| Text.TrimKeepsContent | src/app.tsx:71 | trimming removes only white space: the non-white-space characters are kept in order |
| Text.TrimIdle | src/app.tsx:73-75 | a string with non-white-space ends is its own trim |
| Text.TrimIdempotent | src/app.tsx:42 | trimming twice is trimming once |
| Text.RemoveWsAppend | src/app.tsx:71 | dropping white space distributes over concatenation |
| Text.RemoveWsOfWs | src/app.tsx:71 | an all-white-space string has no content |
| Text.Join | src/app.tsx:71 | `join(sep)` (no contract; specified as the inverse of `Split` by `Text.JoinSplit` and `Text.SplitJoin`) |
| Text.Split | src/app.tsx:48 | `split` yields at least one piece, and no piece contains the separator |
| Text.SplitLimit | src/app.tsx:62 | `split(c, n)` is the first at most `n` pieces of `split(c)`, all of them when there are fewer than `n` |
| Text.JoinSplit | src/app.tsx:42 | joining the pieces of a split with the separator gives back the string |
| Text.SplitJoin | src/app.tsx:48 | splitting a join of separator-free pieces gives back the pieces |
| Text.SplitNoSep | src/app.tsx:48 | a separator-free prefix glues onto the first piece |
| Text.SplitAbsent | src/app.tsx:42 | a string without the separator splits into itself |
| Text.SplitWs | src/app.tsx:76 | `split(/\s+/)` yields at least one piece; where it cuts, for any white-space runs, is stated by `Text.SplitWsRuns` |
| Text.SplitWsNoWsPrefix | src/app.tsx:76 | a white-space-free prefix glues onto the first piece of the split that follows it |
| Text.JoinWordsEnds | src/app.tsx:71 | non-empty words joined by spaces start with the first word's first character and end with the last word's last |
| Text.SplitWsJoin | src/app.tsx:76 | splitting non-empty white-space-free words joined by single spaces gives back exactly those words |
| Text.Interleave | src/app.tsx:71 | words with a white-space run between each two (no contract; the shape `Text.SplitWsRuns` inverts) |
| Text.TrimStartWsPrefix | src/app.tsx:76 | a white-space run in front of text that starts with non-white-space is dropped, and nothing more |
| Text.SplitWsAfterRun | src/app.tsx:76 | a white-space run before a word opens the split with exactly one empty piece, then the word's split |
| Text.InterleaveStart | src/app.tsx:71 | interleaved text is non-empty and starts with the first word's first character |
| Text.SplitWsRuns | src/app.tsx:76 | splitting non-empty white-space-free words separated by arbitrary non-empty white-space runs (tabs, several spaces, line breaks) gives back exactly those words |
| Text.SplitWsWord | src/app.tsx:76 | a word without white space splits into itself |
| Text.SplitWsNoWs | src/app.tsx:76 | no piece of `split(/\s+/)` contains white space |
| Text.SplitWsNonEmpty | src/app.tsx:76 | on a trimmed non-empty string, `split(/\s+/)` yields no empty piece |
| Text.ConcatSplitWs | src/app.tsx:76 | the pieces of `split(/\s+/)` hold exactly the non-white-space characters, in order |
| Text.RemoveWsJoin | src/app.tsx:71 | joining with spaces adds no content |
| Text.Concat | src/app.tsx:160 | strings one after another: the accumulated `responseData += data`, and the content measure of a word list (no contract; see `Text.ConcatSnoc`, `Text.ConcatSplitWs`) |
| Text.ConcatSnoc | src/app.tsx:160 | appending one chunk extends the concatenation by that chunk |
| ToolConfig.IsEnvField | src/app.tsx:57 | the `findIndex` test: the trimmed field starts with `ENV:` (no contract; specified through `ToolConfig.EnvIndexSpec`) |
| ToolConfig.EnvIndex | src/app.tsx:57 | `findIndex` returns -1 or an index in range whose field is an `ENV:` field |
| ToolConfig.EnvIndexSpec | src/app.tsx:57 | -1 exactly when no field is an `ENV:` field; otherwise no earlier field is one (the first is found) |
| ToolConfig.EnvIndexPrefix | src/app.tsx:57 | the first `ENV:` field is found from the fields up to it alone |
| ToolConfig.PairKey | src/app.tsx:62 | the raw key: the first piece of `split('=', 2)` (no contract; see `Scenarios.ExampleLimit`) |
| ToolConfig.PairValue | src/app.tsx:62 | the raw value: the second piece of `split('=', 2)`, absent without `=` (no contract; see `Scenarios.ExampleLimit`) |
| ToolConfig.Contributes | src/app.tsx:63 | `key && value`: both raw pieces are non-empty (no contract; see `ToolConfig.AddPairKeys`) |
| ToolConfig.AddPair | src/app.tsx:62-65 | one step of the `forEach`: set the trimmed key to the trimmed value when the pair contributes (no contract; specified by `ToolConfig.AddPairKeys`) |
| ToolConfig.EnvOf | src/app.tsx:61-66 | the pairs folded left to right with `AddPair` (no contract; specified by `ToolConfig.EnvOfKeys` and `ToolConfig.EnvOfLastWins`) |
| ToolConfig.EnvField | src/app.tsx:59-67 | the variables of one `ENV:` field: none when the text after the tag is empty, else `EnvOf` of its `,`-pieces (no contract) |
| ToolConfig.EnvFor | src/app.tsx:55-68 | the environment of a line: that of its first `ENV:` field, or none (no contract; see `ToolConfig.RestAfterEnvIgnored`) |
| ToolConfig.BuildEnv | src/app.tsx:61-66 | the `forEach` loop over the pairs builds exactly `EnvOf(pairs)` |
| ToolConfig.AddPairKeys | src/app.tsx:62-65 | one pair adds its key exactly when key and value are non-empty, and removes none |
| ToolConfig.EnvOfKeys | src/app.tsx:61-66 | a variable is set exactly when some pair has a non-empty key (trimmed to it) and a non-empty value |
| ToolConfig.EnvOfLastWins | src/app.tsx:61-66 | a variable's value is the trimmed value of the last pair that sets it |
| ToolConfig.ArgFields | src/app.tsx:56-68 | the fields before the first `ENV:` field, or all of them (no contract; see `ToolConfig.RestAfterEnvIgnored`) |
| ToolConfig.Args | src/app.tsx:71-76 | every argument is non-empty and free of white space; `ToolConfig.ArgsRuns` states where the cuts fall |
| ToolConfig.ArgsWords | src/app.tsx:71-76 | single-word fields are exactly those arguments, and one field of words separated by spaces is exactly those words |
| ToolConfig.ArgsRuns | src/app.tsx:71-76 | whenever the joined, trimmed argument text is words separated by non-empty white-space runs, the arguments are exactly those words |
| ToolConfig.ArgsContent | src/app.tsx:71-76 | the arguments hold exactly the non-white-space characters of the argument fields, in order |
| ToolConfig.ToolOf | src/app.tsx:52-78 | a parsed tool's arguments are non-empty and white-space free |
| ToolConfig.ParseLine | src/app.tsx:47-51 | a line is dropped exactly when it has fewer than three `\|`-fields |
| ToolConfig.ParseLineFields | src/app.tsx:52-77 | name, label and command are fields 0-2 trimmed; the arguments are `Args` of the fields before the first `ENV:` field (so `ToolConfig.ArgsRuns` applies), carry their content, and are exactly those fields when each is one word; with an `ENV:` field the environment is `EnvOf` of the `,`-pieces of its text after the tag (so `ToolConfig.EnvOfKeys` and `ToolConfig.EnvOfLastWins` apply), without one it is empty |
| ToolConfig.RestAfterEnvIgnored | src/app.tsx:57-68 | fields after the first `ENV:` field change neither the arguments nor the environment |
| ToolConfig.FieldsAfterEnvIgnored | src/app.tsx:52-78 | two lines that agree up to and including the first `ENV:` field parse to the same tool |
| ToolConfig.Lines | src/app.tsx:42 | `content.split('\n')` (no contract; see `Text.JoinSplit`) |
| ToolConfig.IsToolLine | src/app.tsx:42 | the filter test: the trimmed line is non-empty and does not start with `#` (no contract; see `ToolConfig.ToolLinesMembers`) |
| ToolConfig.ToolLines | src/app.tsx:42 | the `filter` (no contract; specified by `ToolConfig.ToolLinesMembers`, `ToolConfig.ToolLinesEmpty` and `ToolConfig.ToolLinesAppend`) |
| ToolConfig.ParseLines | src/app.tsx:47-79 | the `map` and the `filter` of nulls (no contract; specified by `ToolConfig.ParseLinesMembers`, `ToolConfig.ParseLinesEmpty` and `ToolConfig.ParseLinesAppend`) |
| ToolConfig.ToolLinesAppend | src/app.tsx:42 | the filter keeps file order: the tool lines of a concatenation are those of each part, in turn |
| ToolConfig.ParseLinesAppend | src/app.tsx:47-79 | parsing keeps file order: the tools of a concatenation are those of each part, in turn |
| ToolConfig.LoadedOfLine | src/app.tsx:42-79 | a single line contributes its own tool when it is a tool line that parses, and nothing otherwise |
| ToolConfig.LoadedInOrder | src/app.tsx:42-79 | the tools of earlier lines come before the tools of later lines |
| ToolConfig.ToolLinesMembers | src/app.tsx:42 | the kept lines are exactly the lines that are not blank and not comments |
| ToolConfig.ToolLinesEmpty | src/app.tsx:42-43 | nothing is kept exactly when every line is blank or a comment |
| ToolConfig.ParseLinesMembers | src/app.tsx:47-79 | the tools are exactly the results of the kept lines that parse |
| ToolConfig.ParseLinesEmpty | src/app.tsx:47-79 | no tool exactly when no kept line parses |
| ToolConfig.FirstTool | src/app.tsx:79-83 | the first tool comes from the first tool line, in file order, that parses |
| ToolConfig.ConfigError.Message | src/app.tsx:39-90 | the banner text of each error outcome, word for word (no contract) |
| ToolConfig.ParseConfig | src/app.tsx:38-87 | success carries at least one tool; reading content never yields the not-found error |
| ToolConfig.Load | src/app.tsx:31-91 | success carries at least one tool; the not-found banner appears exactly when the read was rejected |
| ToolConfig.ParseConfigEmpty | src/app.tsx:38-41 | the empty-config banner exactly when the content is empty or white space |
| ToolConfig.ParseConfigNoLines | src/app.tsx:42-46 | the no-valid-lines banner exactly when the content is not blank and every line is blank or a comment |
| ToolConfig.ToolLineNotBlank | src/app.tsx:38-42 | content with a tool line is not blank |
| ToolConfig.JoinNotWs | src/app.tsx:38-42 | text containing a non-blank line is not blank |
| ToolConfig.ParseConfigNoTools | src/app.tsx:47-87 | the no-tools-parsed banner exactly when there are tool lines and each has fewer than three fields |
| ToolConfig.ParseConfigSucceeds | src/app.tsx:79-86 | the tools are installed exactly when some tool line has at least three fields |
| ToolConfig.ParseConfigTools | src/app.tsx:42-79 | the installed tools are exactly those of the tool lines that parse |
| ToolConfig.ParseConfigFirst | src/app.tsx:81-84 | the default selection is the tool of the first tool line that parses |
| Recall.Up | src/app.tsx:347-351 | ArrowUp on a non-empty buffer lands on an entry |
| Recall.Down | src/app.tsx:354-363 | ArrowDown keeps the cursor at -1 or on an entry |
| Recall.UpTimes | src/app.tsx:345-351 | repeated ArrowUp keeps the cursor in range |
| Recall.DownTimes | src/app.tsx:352-364 | repeated ArrowDown keeps the cursor in range |
| Recall.UpTimesFrom | src/app.tsx:348 | from an entry, `k` ArrowUp presses go `k` entries older, clamped at the oldest |
| Recall.UpTimesFresh | src/app.tsx:348 | from a fresh prompt, `k` presses reach the k-th newest entry, clamped at the oldest |
| Recall.DownTimesFrom | src/app.tsx:354-362 | from an entry, `k` ArrowDown presses go `k` entries newer, or back to -1 past the newest |
| Recall.DownUndoesUp | src/app.tsx:345-364 | ArrowDown undoes ArrowUp everywhere except at the oldest entry |
| Chat.UserLine | src/app.tsx:119 | the `USER: …\n` line of a submission (no contract) |
| Chat.BotLine | src/app.tsx:172 | the `BOT: …\n\n` line of a completed turn (no contract) |
| Chat.Serialize | src/app.tsx:119-172 | the history text of completed exchanges, one user line and one bot line each (no contract; `Chat.Session.Valid` keeps `history` equal to it) |
| Chat.SerializeSnoc | src/app.tsx:172 | helper: one unfolding of `Serialize` at the end of the transcript |
| Chat.CompletedHistory | src/app.tsx:119-120 | helper for `Chat.Session.Done`: the submit-time snapshot plus the bot line is `Serialize` of the extended transcript |
| Chat.LaunchFor | src/app.tsx:121-125 | the argv `[command, ...args, history + input]` and `environ` only for a non-empty environment (no contract; stated through `Chat.Session.SendMessage` and `Scenarios.FirstLaunch`) |
| Chat.FindTool | src/app.tsx:237 | `tools.find`: none exactly when no tool has the name; otherwise the first tool with that name |
| Chat.Turn.constructor | src/app.tsx:119-144 | a new turn snapshots `history + "USER: " + input + "\n"`, has no output and an armed timer |
| Chat.Session.constructor | src/app.tsx:15-26 | the initial state: empty input, log, history and recall buffer, cursor -1, idle, no tools, no banner |
| Chat.Session.CanSend | src/app.tsx:111 | the submission guard: non-blank input, not busy, a tool selected (no contract; the case split of `Chat.Session.SendMessage`) |
| Chat.Session.LoadConfig | src/app.tsx:37-91 | a failed load sets only the banner to the outcome's text; a successful one installs the tools and selects the first; nothing else changes |
| Chat.Session.Banner | src/app.tsx:39 | only the banner changes |
| Chat.Session.Install | src/app.tsx:81-84 | only the tools, the selection and the selected name change |
| Chat.Session.SetInput | src/app.tsx:339 | only the input changes |
| Chat.Session.SelectTool | src/app.tsx:236-243 | an unknown name changes nothing; a known one selects the first tool of that name |
| Chat.Session.SendMessage | src/app.tsx:110-192 | when blank, busy or without a tool, nothing happens; otherwise the launch is the tool's command, arguments and `history + input`, with its environment if non-empty; on spawn the input is logged, recorded for recall, cleared, and the session is busy with a fresh turn; on a spawn error the input and the error are logged, the input is recorded and kept, and the session stays idle |
| Chat.Session.Started | src/app.tsx:113-131 | the success half of a submission, with every state field stated |
| Chat.Session.Rejected | src/app.tsx:113-138 | the spawn-error half of a submission, with every state field stated |
| Chat.Session.Stream | src/app.tsx:156-162 | a chunk extends the turn's output by exactly that chunk, marks output, disarms the timer, and shows the output live; nothing else changes |
| Chat.Session.Finish | src/app.tsx:172-175 | the end of a turn: one log entry, the given history, idle, no process, no live output |
| Chat.Session.Done | src/app.tsx:164-177 | the output, or the no-output error when there was none, is logged; the history becomes the submit-time snapshot plus `BOT: output\n\n`, i.e. the transcript gains exactly this exchange; idle, no process |
| Chat.Session.Fail | src/app.tsx:179-187 | one `Error: …` entry is logged; the history and transcript are unchanged; idle, no process |
| Chat.Session.Timeout | src/app.tsx:144-154 | fires only before any output; one timeout entry; history unchanged; idle, no process |
| Chat.Session.Stop | src/app.tsx:206-215 | without a process nothing changes; with one, one stopped entry is logged and the session goes idle with the history unchanged |
| Chat.Session.ShowHistory | src/app.tsx:194-197 | one system entry holding the history between the delimiters; nothing else changes |
| Chat.Session.ClearHistory | src/app.tsx:199-204 | history, transcript, log and live output become empty; busy flag, process, tools and recall are kept |
| Chat.Session.ArrowUp | src/app.tsx:345-351 | on an empty buffer nothing changes; otherwise the cursor moves by `Recall.Up` and the input becomes that entry |
| Chat.Session.ArrowDown | src/app.tsx:352-364 | at -1 nothing changes; otherwise the cursor moves by `Recall.Down` and the input becomes that entry, or empty past the newest |
| Scenarios.ExampleParseLine | src/app.tsx:47-78 | `t\|Label\|echo\|hello` is the tool `t` running `echo hello` with no environment |
| Scenarios.ExampleLimit | src/app.tsx:62 | `a=b=c` sets `a` to `b`: the rest after a second `=` is dropped |
| Scenarios.ExamplePair | src/app.tsx:61-65 | a one-letter `k=v` pair sets `k` to `v` |
| Scenarios.ExampleArgs | src/app.tsx:71-76 | the argument field `a b` becomes the two arguments `a` and `b` |
| Scenarios.ExampleArgsRuns | src/app.tsx:71-76 | the fields ` a ` and ` <TAB>b` of a line `t\|L\|cmd\| a \| \tb` become the two arguments `a` and `b` |
| Scenarios.ExampleEnv | src/app.tsx:61-66 | a pair without `=` is ignored; a later duplicate key overwrites |
| Scenarios.PlainLineParses | src/app.tsx:47-78 | a line of four plain fields whose last is not `ENV:` is the tool with that one argument and no environment |
| Scenarios.PlainLineLoads | src/app.tsx:38-84 | a file of one such non-comment line loads as exactly that tool |
| Scenarios.Configured | src/app.tsx:15-84 | a fresh session after loading such a file has that tool selected and is otherwise initial |
| Scenarios.FirstLaunch | src/app.tsx:121 | on an empty history the process's last argument is the bare input |
| Scenarios.FirstTurn | src/app.tsx:110-177 | a first turn passes `[command, arg, input]`, then after one chunk and the exit logs the input and the output and sets the history to `USER: input\nBOT: output\n\n` (asserted steps, no contract) |
| Scenarios.StopThenTimeout | src/app.tsx:144-215 | after a stop before any output the timer is still armed, and its firing logs a second error after `Process stopped` (asserted steps, no contract) |
| Scenarios.RecallSequence | src/app.tsx:345-364 | with two submitted inputs: up, up, up stops at the oldest; down, down returns to the empty prompt; a further down does nothing (asserted steps, no contract) |

## Left out

- Rendering: the JSX, styles, scrolling, focus, the disabled and read-only states of the controls, and the loading spinner are out of scope. So is the `Show History` size label (`formatSize` of the UTF-8 length via `TextEncoder`): it only displays, and it needs floating point.
- Locating the configuration file: `cockpit.spawn(['whoami'])` and `cockpit.file(path).read()` are foreign calls. Their combined outcome is the `ConfigRead` input to `ToolConfig.Load`. Rejected reads and null content are covered; the path itself is not modelled.
- Process control: `cockpit.spawn`, `proc.close()` and the `err: 'message'` option are foreign calls. Spawning is the `SpawnOutcome` input. Closing a process is not modelled beyond the state change of the handler that closes it.
- Events and time: output, exit, failure and the timer are method calls made by the caller in any order. Real time and the 30-second duration are not modelled. `Chat.Session.Timeout` requires the timer to be armed, because a cleared JavaScript timer never fires.
- The action text of `Spawn Error: …` and `Error: …` is a string parameter. JavaScript's conversion of an error object to text is not modelled.
- Console logging is left out: it has no effect on state.
- The Enter-key handler (line 343) is not a separate member. Its extra `!isBusy` check is already part of the submission guard, so it behaves the same as `SendMessage`.
- React batching is modelled by having every handler read the state of the render it runs in (`old(...)`). The order in which React applies queued updates relative to other events is not modelled.
- The environment is a `map<string, string>`. A key spelled `__proto__` is silently dropped by a JavaScript object but is kept in the map.
- JavaScript strings are UTF-16. The model uses Dafny characters, so a surrogate pair counts as one character, not two.
- The `label` field of a tool is called `caption` in the model, because `label` is a reserved word in Dafny.
- `currentProcess` is the boolean `hasProcess`, which always equals `isBusy`; which process object it holds is not modelled.
