/**
 * The bot manager: fetching a bot's repository, installing its
 * dependencies, and the handlers wired to a running bot's standard streams,
 * which append to the bot's log and forward what they read to the client.
 */
module BotManager {
  import opened Text
  import opened Paths
  import opened Protocol

  // ---------------------------------------------------------------------------
  // Repository acquisition: pull when the checkout exists, clone otherwise.

  /** How the git command the manager ran came out. */
  datatype GitOutcome = GitOk | GitFailed(message: string)

  /** The git command the manager runs. */
  datatype GitCommand = Pull(dir: string) | Clone(url: string, dir: string)

  datatype Download = Download(command: GitCommand, result: Result<string>)

  /**
   * `downloadBotRepo`: `existing` is the set of paths present on disk, `git`
   * the outcome of whichever git command is run. A failed pull is swallowed;
   * a failed clone is the failure of the whole step.
   */
  function DownloadBotRepo(repoUrl: string, name: string, existing: set<string>, git: GitOutcome): (d: Download)
    ensures d.command == (if BotPath(name) in existing then Pull(BotPath(name)) else Clone(repoUrl, BotPath(name)))
    ensures d.result.Ok? ==> d.result.value == BotPath(name)
    ensures d.result.Fail? <==> d.command.Clone? && git.GitFailed?
    ensures d.result.Fail? ==> d.result.message == git.message
  {
    var path := BotPath(name);
    if path in existing then
      Download(Pull(path), Ok(path))
    else
      Download(Clone(repoUrl, path), if git.GitOk? then Ok(path) else Fail(git.message))
  }

  // ---------------------------------------------------------------------------
  // Dependency installation: the promise around `npm install`.

  /** The exit status a child's `close` event reports: a code, or `null` when a signal ended it. */
  datatype ExitCode = Exited(code: int) | Signalled

  /** `${code}` for an exit status. */
  function ExitCodeText(c: ExitCode): string {
    match c
    case Exited(n) => IntToString(n)
    case Signalled => "null"
  }

  /** Different exit statuses print differently. */
  lemma ExitCodeTextInjective(a: ExitCode, b: ExitCode)
    requires ExitCodeText(a) == ExitCodeText(b)
    ensures a == b
  {
    if a.Exited? && b.Exited? {
      IntToStringInjective(a.code, b.code);
    }
  }

  /** What the `npm install` child reports, in the order it reports it. */
  datatype NpmEvent =
    | NpmSpawnError(message: string)
    | NpmStdout(data: string)
    | NpmStderr(data: string)
    | NpmClose(code: ExitCode)

  /** The state of the promise `installBotDependencies` returns. */
  datatype Settlement = Pending | Resolved | Rejected(message: string)

  /** Whether an event settles the promise (output data is only logged to the console). */
  predicate Settles(e: NpmEvent) {
    e.NpmSpawnError? || e.NpmClose?
  }

  /** No event before index `i` settles the promise. */
  predicate QuietBefore(events: seq<NpmEvent>, i: nat)
    requires i <= |events|
  {
    forall j | 0 <= j < i :: !Settles(events[j])
  }

  /** The `close` handler's decision. */
  function CloseRule(code: ExitCode): (s: Settlement)
    ensures s != Pending
    ensures s == Resolved <==> code == Exited(0)
    ensures s.Rejected? ==> s.message == "npm install failed with code " + ExitCodeText(code)
  {
    if code == Exited(0) then Resolved
    else Rejected("npm install failed with code " + ExitCodeText(code))
  }

  /** A rejection message names the exit status it came from. */
  lemma CloseRejectionIdentifiesCode(a: ExitCode, b: ExitCode)
    requires CloseRule(a) == CloseRule(b)
    ensures a == b
  {
    if a != Exited(0) && b != Exited(0) {
      var prefix := "npm install failed with code ";
      assert (prefix + ExitCodeText(a))[|prefix|..] == ExitCodeText(a);
      assert (prefix + ExitCodeText(b))[|prefix|..] == ExitCodeText(b);
      ExitCodeTextInjective(a, b);
    }
  }

  /**
   * `installBotDependencies` after the child has reported `events`: the
   * first spawn error or close settles the promise; later events change
   * nothing.
   */
  function InstallBotDependencies(events: seq<NpmEvent>): (s: Settlement)
    ensures s == Pending <==> forall i | 0 <= i < |events| :: !Settles(events[i])
  {
    if events == [] then Pending
    else
      match events[0]
      case NpmSpawnError(m) => Rejected(m)
      case NpmClose(c) => CloseRule(c)
      case _ => InstallBotDependencies(events[1..])
  }

  /**
   * The first settling event decides the promise: a spawn error rejects it
   * with the error's own message, a close applies `CloseRule`.
   */
  lemma {:induction false} InstallDecidedByFirstSettling(events: seq<NpmEvent>, i: nat)
    requires i < |events| && Settles(events[i]) && QuietBefore(events, i)
    ensures InstallBotDependencies(events) ==
      if events[i].NpmSpawnError? then Rejected(events[i].message) else CloseRule(events[i].code)
  {
    if i > 0 {
      assert !Settles(events[0]);
      var rest := events[1..];
      assert rest[i - 1] == events[i];
      assert QuietBefore(rest, i - 1) by {
        forall j | 0 <= j < i - 1 ensures !Settles(rest[j]) {
          assert rest[j] == events[j + 1];
        }
      }
      InstallDecidedByFirstSettling(rest, i - 1);
    }
  }

  /** The install succeeds exactly when the first settling event is a close with code 0. */
  lemma {:induction false} InstallResolvedIff(events: seq<NpmEvent>)
    ensures InstallBotDependencies(events) == Resolved <==>
      exists i :: 0 <= i < |events| && events[i] == NpmClose(Exited(0)) && QuietBefore(events, i)
  {
    if events != [] {
      if events[0] == NpmClose(Exited(0)) {
        assert QuietBefore(events, 0);
      } else if !Settles(events[0]) {
        var rest := events[1..];
        InstallResolvedIff(rest);
        if InstallBotDependencies(events) == Resolved {
          var i :| 0 <= i < |rest| && rest[i] == NpmClose(Exited(0)) && QuietBefore(rest, i);
          assert events[i + 1] == NpmClose(Exited(0));
          assert QuietBefore(events, i + 1) by {
            forall j | 0 <= j < i + 1 ensures !Settles(events[j]) {
              if j > 0 { assert events[j] == rest[j - 1]; }
            }
          }
        }
        if exists i :: 0 <= i < |events| && events[i] == NpmClose(Exited(0)) && QuietBefore(events, i) {
          var i :| 0 <= i < |events| && events[i] == NpmClose(Exited(0)) && QuietBefore(events, i);
          assert i > 0;
          assert rest[i - 1] == NpmClose(Exited(0));
          assert QuietBefore(rest, i - 1) by {
            forall j | 0 <= j < i - 1 ensures !Settles(rest[j]) {
              assert rest[j] == events[j + 1];
            }
          }
        }
      }
    }
  }

  /** A promise settles once: events after the settling one change nothing. */
  lemma {:induction false} SettlementIsFinal(events: seq<NpmEvent>, later: seq<NpmEvent>)
    requires InstallBotDependencies(events) != Pending
    ensures InstallBotDependencies(events + later) == InstallBotDependencies(events)
  {
    assert events != [];
    assert (events + later)[0] == events[0];
    if !Settles(events[0]) {
      assert (events + later)[1..] == events[1..] + later;
      SettlementIsFinal(events[1..], later);
    }
  }

  // ---------------------------------------------------------------------------
  // The log directory, shared by every bot process and read by the log query.

  /** The text of the file at `path`, empty when it does not exist. */
  function FileText(files: map<string, string>, path: string): string {
    if path in files then files[path] else ""
  }

  /** `fs.appendFileSync(path, text)`: creates the file if needed, touches no other file. */
  function AppendText(files: map<string, string>, path: string, text: string): (r: map<string, string>)
    ensures r.Keys == files.Keys + {path}
    ensures forall p | p in files && p != path :: r[p] == files[p]
    ensures FileText(r, path) == FileText(files, path) + text
  {
    files[path := FileText(files, path) + text]
  }

  /** The files in the log directory, keyed by path. */
  class LogStore {
    var files: map<string, string>

    /** The log directory as the server finds it on disk when it starts. */
    constructor (files: map<string, string>)
      ensures this.files == files
    {
      this.files := files;
    }

    method Append(path: string, text: string)
      modifies this
      ensures files == AppendText(old(files), path, text)
    {
      files := AppendText(files, path, text);
    }
  }

  // ---------------------------------------------------------------------------
  // A running bot: what each stream handler logs and emits.

  /** One callback the child process fires: a stdout chunk, a stderr chunk, or its close. */
  datatype StreamEvent = Stdout(chunk: string) | Stderr(chunk: string) | Close(code: ExitCode)

  /** The text a handler appends to the bot's log. */
  function LogEntry(name: string, e: StreamEvent): string {
    match e
    case Stdout(c) => c
    case Stderr(c) => "[ERROR] " + c
    case Close(_) => "\nBot " + name + " closed\n"
  }

  /** The message a handler emits to the client that started the bot. */
  function Emitted(name: string, e: StreamEvent): Event {
    match e
    case Stdout(c) => BotOutput(name, c)
    case Stderr(c) => BotError(name, c)
    case Close(_) => BotClosed(name)
  }

  /**
   * The child process `startBotProcess` spawns, with the handlers it
   * installs. `stdin` is everything written to the child's input, in order.
   */
  class BotProcess {
    const botPath: string
    const name: string
    const socket: Socket
    const logs: LogStore
    var stdin: seq<string>
    var killed: bool

    constructor (botPath: string, name: string, socket: Socket, logs: LogStore)
      ensures this.botPath == botPath && this.name == name
      ensures this.socket == socket && this.logs == logs
      ensures stdin == [] && !killed
    {
      this.botPath := botPath;
      this.name := name;
      this.socket := socket;
      this.logs := logs;
      stdin := [];
      killed := false;
    }

    /** `logOutput`: appends to `LOG_DIR/<name>.log`. */
    method LogOutput(output: string)
      modifies logs
      ensures logs.files == AppendText(old(logs.files), LogPath(name), output)
    {
      logs.Append(LogPath(name), output);
    }

    /** The `data` handler on stdout. */
    method OnStdout(chunk: string)
      modifies logs, socket
      ensures logs.files == AppendText(old(logs.files), LogPath(name), LogEntry(name, Stdout(chunk)))
      ensures socket.outbox == old(socket.outbox) + [Emitted(name, Stdout(chunk))]
    {
      LogOutput(chunk);
      socket.Emit(BotOutput(name, chunk));
    }

    /** The `data` handler on stderr: the log line is tagged, the forwarded text is not. */
    method OnStderr(chunk: string)
      modifies logs, socket
      ensures logs.files == AppendText(old(logs.files), LogPath(name), LogEntry(name, Stderr(chunk)))
      ensures socket.outbox == old(socket.outbox) + [Emitted(name, Stderr(chunk))]
    {
      LogOutput("[ERROR] " + chunk);
      socket.Emit(BotError(name, chunk));
    }

    /** The `close` handler: the exit status is only printed to the console. */
    method OnClose(code: ExitCode)
      modifies logs, socket
      ensures logs.files == AppendText(old(logs.files), LogPath(name), LogEntry(name, Close(code)))
      ensures socket.outbox == old(socket.outbox) + [Emitted(name, Close(code))]
    {
      LogOutput("\nBot " + name + " closed\n");
      socket.Emit(BotClosed(name));
    }

    /** Dispatches one callback to the handler installed for it. */
    method Handle(e: StreamEvent)
      modifies logs, socket
      ensures logs.files == AppendText(old(logs.files), LogPath(name), LogEntry(name, e))
      ensures socket.outbox == old(socket.outbox) + [Emitted(name, e)]
    {
      match e {
        case Stdout(c) => OnStdout(c);
        case Stderr(c) => OnStderr(c);
        case Close(code) => OnClose(code);
      }
    }

    /** `kill()`: asks the child to terminate. */
    method Kill()
      modifies this
      ensures killed && stdin == old(stdin)
    {
      killed := true;
    }

    /** `stdin.write(text)`. */
    method WriteStdin(text: string)
      modifies this
      ensures stdin == old(stdin) + [text] && killed == old(killed)
    {
      stdin := stdin + [text];
    }
  }

  // ---------------------------------------------------------------------------
  // A whole run of one process: the handlers fired in order.

  /** The log directory after the handlers have handled `run`, one after the other. */
  function ApplyRun(files: map<string, string>, name: string, run: seq<StreamEvent>): map<string, string>
    decreases |run|
  {
    if run == [] then files
    else ApplyRun(AppendText(files, LogPath(name), LogEntry(name, run[0])), name, run[1..])
  }

  /** The text a run adds to the log. */
  function RunLog(name: string, run: seq<StreamEvent>): string {
    if run == [] then "" else LogEntry(name, run[0]) + RunLog(name, run[1..])
  }

  /** The messages a run emits. */
  function RunEvents(name: string, run: seq<StreamEvent>): seq<Event> {
    if run == [] then [] else [Emitted(name, run[0])] + RunEvents(name, run[1..])
  }

  /**
   * The event loop delivering `run` to the process's handlers, one callback
   * after the other: the log directory and the outbox end up as `ApplyRun`
   * and `RunEvents` say.
   */
  method Replay(p: BotProcess, run: seq<StreamEvent>)
    modifies p.logs, p.socket
    ensures p.logs.files == ApplyRun(old(p.logs.files), p.name, run)
    ensures p.socket.outbox == old(p.socket.outbox) + RunEvents(p.name, run)
  {
    ghost var files0, outbox0 := p.logs.files, p.socket.outbox;
    var i := 0;
    while i < |run|
      invariant 0 <= i <= |run|
      invariant ApplyRun(files0, p.name, run) == ApplyRun(p.logs.files, p.name, run[i..])
      invariant outbox0 + RunEvents(p.name, run) == p.socket.outbox + RunEvents(p.name, run[i..])
      decreases |run| - i
    {
      ghost var f, o := p.logs.files, p.socket.outbox;
      p.Handle(run[i]);
      RunStep(files0, f, outbox0, o, p.name, run, i);
      i := i + 1;
    }
    assert run[i..] == [];
  }

  /** Handling the `i`-th event of a run moves the replay one step along `ApplyRun` and `RunEvents`. */
  lemma RunStep(files0: map<string, string>, files: map<string, string>, outbox0: seq<Event>, outbox: seq<Event>,
                name: string, run: seq<StreamEvent>, i: nat)
    requires i < |run|
    requires ApplyRun(files0, name, run) == ApplyRun(files, name, run[i..])
    requires outbox0 + RunEvents(name, run) == outbox + RunEvents(name, run[i..])
    ensures ApplyRun(files0, name, run) == ApplyRun(AppendText(files, LogPath(name), LogEntry(name, run[i])), name, run[i + 1..])
    ensures outbox0 + RunEvents(name, run) == (outbox + [Emitted(name, run[i])]) + RunEvents(name, run[i + 1..])
  {
    assert run[i..][0] == run[i] && run[i..][1..] == run[i + 1..];
  }

  /** The stdout chunks of a run, in order. */
  function StdoutChunks(run: seq<StreamEvent>): seq<string> {
    if run == [] then []
    else (if run[0].Stdout? then [run[0].chunk] else []) + StdoutChunks(run[1..])
  }

  /** The payloads of the `botOutput` messages among `events`, in order. */
  function ForwardedOutputs(events: seq<Event>): seq<string> {
    if events == [] then []
    else (if events[0].BotOutput? then [events[0].output] else []) + ForwardedOutputs(events[1..])
  }

  /** The log is append-only: a run extends the bot's log by exactly `RunLog`, and touches no other file. */
  lemma {:induction false} ApplyRunAppends(files: map<string, string>, name: string, run: seq<StreamEvent>)
    ensures FileText(ApplyRun(files, name, run), LogPath(name)) == FileText(files, LogPath(name)) + RunLog(name, run)
    ensures forall p | p in files && p != LogPath(name) :: p in ApplyRun(files, name, run) && ApplyRun(files, name, run)[p] == files[p]
    decreases |run|
  {
    if run != [] {
      var path := LogPath(name);
      var next := AppendText(files, path, LogEntry(name, run[0]));
      var after := ApplyRun(next, name, run[1..]);
      assert ApplyRun(files, name, run) == after;
      ApplyRunAppends(next, name, run[1..]);
      assert RunLog(name, run) == LogEntry(name, run[0]) + RunLog(name, run[1..]);
      assert FileText(files, path) + LogEntry(name, run[0]) + RunLog(name, run[1..])
          == FileText(files, path) + (LogEntry(name, run[0]) + RunLog(name, run[1..]));
      forall p | p in files && p != path
        ensures p in after && after[p] == files[p]
      {
        assert p in next && next[p] == files[p];
      }
    }
  }

  /** Every stdout chunk reaches the client as a `botOutput` message, verbatim and in order. */
  lemma {:induction false} OutputsForwardedInOrder(name: string, run: seq<StreamEvent>)
    ensures ForwardedOutputs(RunEvents(name, run)) == StdoutChunks(run)
  {
    if run != [] {
      var evs := RunEvents(name, run);
      assert evs[1..] == RunEvents(name, run[1..]);
      OutputsForwardedInOrder(name, run[1..]);
    }
  }

  /**
   * The log of a run splits around any one of its events: the text an event
   * appends sits right after the log of the events before it. For a stdout
   * chunk that text is the chunk itself.
   */
  lemma {:induction false} RunLogSplit(name: string, run: seq<StreamEvent>, i: nat)
    requires i < |run|
    ensures RunLog(name, run) == RunLog(name, run[..i]) + LogEntry(name, run[i]) + RunLog(name, run[i + 1..])
  {
    if i > 0 {
      RunLogSplit(name, run[1..], i - 1);
      assert run[1..][..i - 1] == run[..i][1..];
      assert run[1..][i - 1 + 1..] == run[i + 1..];
    }
  }
}
