# Bot supervisor model

A Dafny model of the core of a small Node.js server that runs "bots": Node
programs cloned from a git repository. A remote client starts, stops,
restarts and commands bots over a socket. Each bot runs as a child process,
and its output is appended to a per-bot log and forwarded to the client that
started it. The model covers:

- the server's registry, `botProcesses` (name to process) and `botStatuses`
  (name to status text), and the four socket handlers that change it:
  `startBot`, `stopBot`, `restartBot` and `sendCommand`;
- the two HTTP queries: the bot listing and the log lookup;
- the bot manager's decisions: pull or clone, the `npm install` exit-code
  rule, and the stdout, stderr and close handlers of a running bot.

Modules:

- `Text`: `${n}` for integers, and the proof that it is injective.
- `Paths`: `BOT_DIR/<name>` and `LOG_DIR/<name>.log`.
- `Protocol`: the messages sent to a client. A `Socket` class records them
  in an outbox.
- `BotManager` (src/botManager.js):
  - `DownloadBotRepo` and `InstallBotDependencies` as functions of the git
    outcome and the sequence of events from the npm child;
  - the log directory as a `LogStore` class;
  - a running bot as a `BotProcess` class whose methods are its stream
    handlers;
  - `Replay`, the event loop delivering a run of callbacks, and lemmas
    about whole runs.
- `Registry` (the pure part of src/server.js):
  - the two dictionaries as a value `State<H>` and the invariant
    `Consistent`;
  - the decisions of `startBot` and `stopBot` as functions;
  - the listing and log queries.
- `Server` (the imperative part of src/server.js): a `Server` class holding
  the two dictionaries, with one method per socket handler. Each method's
  postcondition ties the new dictionaries and the new outbox to the
  `Registry` functions. Two client sessions show what a caller can conclude.
- `Findings`: the registry lookups as written. They also find names
  inherited from `Object.prototype` (see Findings).

Each handler's code after its last `await` runs without interruption on
Node's single event loop, so each method is one atomic step. The git and npm
outcomes are parameters of `StartBot`.

Three behaviours of the code are easy to miss; the model follows the code:

- A bot's `close` does not change the registry. A bot that exits on its own
  stays registered as `Running` until a `stopBot`.
- `botClosed` carries no exit code.
- `restartBot` does not stop and start the bot. It sends `stopBot` and then
  `startBot` back to the client.

## Model

| member | source | states |
|---|---|---|
| Text.NatToString | src/botManager.js:58 | the rendering is a non-empty string of decimal digits with no leading zero |
| Text.DigitsValueOfNatToString | src/botManager.js:58 | reading the digits back gives the number: the rendering loses nothing |
| Text.IntToString | src/botManager.js:58 | a rendered integer starts with `-` exactly when it is negative; otherwise it starts with a digit |
| Text.IntToStringInjective | src/botManager.js:58 | distinct exit codes print as distinct text |
| Paths.BotPathParts | src/botManager.js:15 | for a name that is a single path segment, a checkout path is `BOT_DIR/` followed by exactly the bot's name |
| Paths.LogPathParts | src/botManager.js:66 | for a name that is a single path segment, a log path is `LOG_DIR/`, exactly the bot's name, then `.log` |
| Paths.BotPathInjective | src/botManager.js:15 | two bots whose names are single path segments never share a checkout directory |
| Paths.LogPathInjective | src/server.js:42 | two bots whose names are single path segments never share a log file, so the log query finds only the named bot's output |
| Paths.BotPathIsNotLogPath | src/botManager.js:6-7 | a log file is neither equal to a checkout path nor inside a checkout directory |
| Protocol.Socket.Emit | src/server.js:70 | an emitted message is appended to the client's outbox and nothing earlier changes |
| BotManager.DownloadBotRepo | src/botManager.js:14-33 | pulls if and only if `BOT_DIR/name` exists, otherwise clones from the given URL into it; success always yields `BOT_DIR/name`; fails exactly when a clone fails, with the clone's message; a pull failure is swallowed |
| BotManager.ExitCodeTextInjective | src/botManager.js:58 | different exit statuses, including the `null` of a signal, print differently |
| BotManager.CloseRule | src/botManager.js:53-59 | the `close` handler always settles the promise, resolves if and only if the exit code is 0, and otherwise rejects with "npm install failed with code <code>" |
| BotManager.CloseRejectionIdentifiesCode | src/botManager.js:58 | the rejection message "npm install failed with code <code>" determines the exit status |
| BotManager.InstallBotDependencies | src/botManager.js:35-62 | the promise stays pending exactly while neither a spawn error nor a close has been reported |
| BotManager.InstallDecidedByFirstSettling | src/botManager.js:40-59 | the first spawn error or close decides the outcome: a spawn error rejects with its own message, a close follows the exit-code rule, including its rejection message |
| BotManager.InstallResolvedIff | src/botManager.js:40-59 | the install resolves if and only if the first settling event is a close with code 0; a spawn error first rejects it |
| BotManager.SettlementIsFinal | src/botManager.js:36-61 | once the promise has settled, later child events do not change the outcome |
| BotManager.AppendText | src/botManager.js:67 | appending creates the file if missing, extends it by exactly the text, and leaves every other file alone |
| BotManager.LogStore.constructor | src/botManager.js:9-12 | the log directory starts as found on disk |
| BotManager.LogStore.Append | src/botManager.js:67 | the directory after an append is `AppendText` of the directory before |
| BotManager.BotProcess.constructor | src/botManager.js:64-70 | a spawned bot remembers its directory, name, client socket and log directory; nothing has been written to its stdin and it is not killed |
| BotManager.BotProcess.LogOutput | src/botManager.js:65-68 | `logOutput` appends its text to `LOG_DIR/<name>.log` |
| BotManager.BotProcess.OnStdout | src/botManager.js:72-77 | a stdout chunk is appended to the log unchanged, and `botOutput{name, output}` with that chunk is emitted |
| BotManager.BotProcess.OnStderr | src/botManager.js:79-83 | a stderr chunk is logged as `[ERROR] ` plus the chunk, but `botError{name, error}` carries the untagged chunk |
| BotManager.BotProcess.OnClose | src/botManager.js:85-89 | close appends `\nBot <name> closed\n` and emits `botClosed{name}` without the exit code; it touches only the log directory and the socket, not the server's registry |
| BotManager.BotProcess.Kill | src/server.js:84 | `kill()` marks the process killed and leaves its stdin alone |
| BotManager.BotProcess.WriteStdin | src/server.js:106 | a write appends exactly its text to the process's stdin |
| BotManager.BotProcess.Handle | src/botManager.js:72-89 | each callback runs the handler installed for its stream: one log append of `LogEntry` and one emit of the matching message |
| BotManager.Replay | src/botManager.js:72-89 | delivering a run of callbacks one after the other leaves the log directory as `ApplyRun` and appends exactly `RunEvents` to the outbox, so the run lemmas describe the handlers' real effect |
| BotManager.RunStep | src/botManager.js:72-89 | handling the next callback advances the replay by one step of `ApplyRun` and `RunEvents` |
| BotManager.ApplyRunAppends | src/botManager.js:65-68 | the log is append-only: after any sequence of handler calls the old log is a prefix of the new one, extended by exactly the run's text, and every other file is unchanged |
| BotManager.OutputsForwardedInOrder | src/botManager.js:72-77 | the `botOutput` payloads a run emits are exactly its stdout chunks, verbatim and in order |
| BotManager.RunLogSplit | src/botManager.js:72-89 | each event's log text sits right after the log of the events before it; for stdout that text is the chunk itself |
| Registry.Prepare | src/server.js:58-61 | `startBot` is ready to spawn if and only if the download succeeds and the install resolves, and it is then ready at `BOT_DIR/name`; a never-settling install leaves it waiting; a failure carries the clone's message when a clone failed, and the install's rejection message otherwise |
| Registry.DecideStart | src/server.js:63-73 | the registry is consulted only after download and install: launch exactly when ready and not registered, "already running" exactly when ready and registered, and a download or install failure is reported with its message |
| Registry.Register | src/server.js:68-69 | registering keeps the invariant, records the new handle with status `Running`, and leaves every other name untouched |
| Registry.Stop | src/server.js:77-87 | on an unregistered name: the "Bot <name> is not running" error, and the registry is unchanged; on a registered name: the handle is removed, the status becomes `Stopped`, and `botStopped` is emitted; other names are untouched; the invariant is kept |
| Registry.StopUndoesRegister | src/server.js:68-86 | stopping a just-started bot restores the earlier handles and marks the bot `Stopped` |
| Registry.StopTwice | src/server.js:77-87 | a second stop changes nothing and reports that the bot is not running |
| Registry.ListBots | src/server.js:30-33 | one entry per directory entry, in order, named after the entry; the status is the recorded one, or `Stopped` when none (or an empty one) is recorded |
| Registry.GetBots | src/server.js:26-37 | a failed directory read answers 500 "Failed to read bot directory", and only a failed read does; otherwise the answer is the listing of the entries read, with their statuses |
| Registry.ListingReflectsRegistry | src/server.js:30-33 | under the invariant, the listing shows `Running` exactly for the bots holding a process, and `Stopped` for every other entry |
| Registry.GetLog | src/server.js:40-50 | the query answers 404 "Log not found" exactly when `LOG_DIR/<name>.log` does not exist; otherwise it returns that file's text under the bot's name |
| Registry.GetLogAfterRun | src/server.js:42-49 | after a bot's handlers have run, its log query finds the earlier log extended by the run's text, and the query for any other bot whose name is a single path segment is unaffected |
| Registry.ApplyRunKeys | src/botManager.js:67 | a bot's handlers add at most its own log file to the log directory |
| Server.Server.constructor | src/server.js:12-13 | the server starts with both dictionaries empty, which satisfies the invariant |
| Server.Server.StartBot | src/server.js:57-74 | keeps the invariant. Download and install run before the registry check. If the bot is not registered, it spawns a fresh process at `BOT_DIR/name` bound to the requesting socket, registers it as `Running` and emits `botStarted`. If it is registered, it emits "already running" and the existing handle and status stay. On a failure it emits "Failed to start bot: <msg>" and nothing changes. A pending install emits nothing. |
| Server.Server.StopBot | src/server.js:77-88 | keeps the invariant; the new dictionaries and the emitted messages are those of `Stop`; a registered process is killed |
| Server.Server.RestartBot | src/server.js:91-96 | emits `stopBot` and then `startBot` to the client and changes no server state |
| Server.Server.SendCommand | src/server.js:99-107 | on an unregistered name it emits "Bot <name> is not running" and writes nothing; on a registered name it appends exactly `command + "\n"` to that bot's stdin, emits nothing and changes no dictionary |
| Findings.LookupAsWritten | src/server.js:78 | as written, the lookup finds nothing exactly when the name is neither registered nor inherited from `Object.prototype` |
| Findings.StopBranchAsWritten | src/server.js:77-84 | as written, `stopBot` reports "not running" exactly when that lookup finds nothing |
| Findings.DecideStartAsWritten | src/server.js:63-70 | as written, `startBot` launches exactly when ready and that lookup finds nothing |
| Findings.SendBranchAsWritten | src/server.js:100-106 | as written, `sendCommand` reports "not running" exactly when that lookup finds nothing, and writes to a real process exactly when the bot is registered |
| Findings.StatusAsWritten | src/server.js:32 | as written, the listing's status is an inherited member exactly for an inherited name with no recorded status; otherwise it is the intended `StatusOf` text |
| Findings.StopConstructorOnFreshServer | src/server.js:78-84 | on a fresh server, `stopBot` for `constructor` as written calls `kill` on an inherited member instead of reporting; the intended `Stop` reports "not running" |
| Findings.StartConstructorOnFreshServer | src/server.js:63-66 | on a fresh server, `startBot` for `constructor` as written reports "already running"; the intended `DecideStart` launches it |
| Findings.SendConstructorOnFreshServer | src/server.js:100-106 | on a fresh server, `sendCommand` for `constructor` as written writes to an inherited member although no bot of that name is registered |
| Findings.ListConstructorOnFreshServer | src/server.js:32 | as written, a checkout named `constructor` is listed with an inherited member as its status; the intended `ListBots` lists it `Stopped` |
| Findings.AsWrittenAgreesOffInheritedNames | src/server.js:63-106 | for every other name the code as written and the intended lookups take the same branches and give the same status |

## Findings

| source | as written | input that shows it | evidently intended | confidence | as-written member | corrected member |
|---|---|---|---|---|---|---|
| src/server.js:78-84 | `if (!botProcess)` tests a plain object's property. Names inherited from `Object.prototype` are truthy, so `stopBot` calls `.kill()` on a function and throws instead of reporting | `stopBot{botName: "constructor"}` on a freshly started server | only the bots the server registered count as running: emit "Bot constructor is not running" | high; not executed | Findings.StopConstructorOnFreshServer | Registry.Stop |
| src/server.js:63-66 | the same truthiness test makes `startBot` answer "already running" for an inherited name, so such a bot can never start | `startBot{botName: "constructor"}` on a freshly started server, after download and install succeed | launch the bot | high; not executed | Findings.StartConstructorOnFreshServer | Registry.DecideStart |
| src/server.js:100-106 | the same truthiness test makes `sendCommand` call `.stdin.write` on an inherited member, which throws instead of reporting | `sendCommand{botName: "constructor", command: "x"}` on a freshly started server | emit "Bot constructor is not running" | high; not executed | Findings.SendConstructorOnFreshServer | Server.Server.SendCommand |
| src/server.js:32 | the fallback expression `botStatuses[file]` or `'Stopped'` yields the inherited function for a checkout named after an `Object.prototype` member, and JSON drops a function, so that entry has no status | a directory `bots/constructor`, which a `startBot{botName: "constructor"}` clones, and a `GET /api/bots` | list it as `Stopped` | high; not executed | Findings.ListConstructorOnFreshServer | Registry.ListBots |

## Left out

- The HTTP listener, static file serving and socket.io transport. A client's socket is modelled only as the outbox of messages emitted to it. Which clients are connected is not modelled.
- The real `spawn`, `kill`, git and npm. A process is an object that records what is written to its stdin and whether it was killed. Git's outcome and the npm child's events are parameters.
- Filesystem access. The existing checkouts are a set of paths. The bot directory listing is a given `Result`. The log directory is a `LogStore` map from path to text. `mkdirSync` at start-up is not modelled.
- `path.join` normalisation. Names are treated as single path segments, so a name holding `/` or `..` is not resolved.
- Chunks are modelled as text. Decoding bytes with `data.toString()` is not modelled, including a multi-byte character split across two chunks.
- Server.Server.RestartBot: the 1000 ms timer between the two emits is left out. In the code, other messages can reach the client between `stopBot` and `startBot`.
- Overlapping `startBot` calls are modelled only as atomic steps: the code after each handler's last `await` is one step. Each step is a separate method call, so interleavings between steps are covered. The model does not wait inside a step. An install that never settles leaves the handler suspended and emits nothing.
- An `error` event from the bot's own child process or from its stdin stream has no handler in the code. Examples are writing to a bot that has exited, or a failed spawn of `npm start`. The process crash this causes is not modelled.
- `console.log` and `console.error` output, which has no observable contract.
- The `socket.on('disconnect')` handler, which only logs.
- Lifecycle states other than `Running` and `Stopped`: the code records only these two.
- A `sendCommand` payload without a `command` field writes `undefined` and a newline (src/server.js:106); the model's command is always a string.
- A socket message with no payload makes the `({ botName })` destructuring of each handler throw; every modelled message carries its fields.
- A failing `fs.appendFileSync` (src/botManager.js:67) throws inside a stream handler. That uncaught exception ends the server; the model's appends always succeed.
- A failing `fs.readFileSync` after the existence check (src/server.js:48) answers with Express's default 500 page; the model's read of an existing log always succeeds.
