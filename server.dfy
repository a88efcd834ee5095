/**
 * The server's socket handlers over its two module-level dictionaries.
 * Each handler's code after its last `await` runs to completion on the
 * single-threaded event loop, so each method is one atomic step.
 */
module Server {
  import opened Paths
  import opened Protocol
  import opened BotManager
  import opened Registry

  class Server {
    var processes: map<string, BotProcess>
    var statuses: map<string, string>
    const logs: LogStore

    /** The two dictionaries as a registry value. */
    function Model(): State<BotProcess>
      reads this
    {
      State(processes, statuses)
    }

    /** The registry invariant, and each handle is the process spawned for its own name, logging to this server's log directory. */
    ghost predicate Valid()
      reads this
    {
      && Consistent(Model())
      && forall n | n in processes :: processes[n].name == n && processes[n].logs == logs
    }

    constructor (logs: LogStore)
      ensures Valid() && Model() == Empty() && this.logs == logs
    {
      processes := map[];
      statuses := map[];
      this.logs := logs;
    }

    /**
     * `startBot`: download and install (their outcomes are `existing`, `git`
     * and `npm`), then spawn and register the bot unless it is already
     * registered. `spawned` is the process started, if any.
     */
    method StartBot(name: string, existing: set<string>, git: GitOutcome, npm: seq<NpmEvent>, socket: Socket)
      returns (spawned: BotProcess?)
      requires Valid()
      modifies this, socket
      ensures Valid()
      ensures var c := DecideStart(old(Model()), name, Prepare(name, existing, git, npm));
        && socket.outbox == old(socket.outbox) + StartEvents(name, c)
        && (c.Launch? ==>
              && spawned != null && fresh(spawned)
              && Model() == Register(old(Model()), name, spawned)
              && spawned.name == name && spawned.botPath == c.path == BotPath(name)
              && spawned.socket == socket && spawned.logs == logs
              && spawned.stdin == [] && !spawned.killed)
        && (!c.Launch? ==> spawned == null && Model() == old(Model()))
    {
      spawned := null;
      var prep := Prepare(name, existing, git, npm);
      match prep
      case Waiting =>
      case PrepFailed(m) =>
        socket.Emit(Error(FailedToStartMessage(m)));
      case Ready(botPath) =>
        if name in processes {
          socket.Emit(Error(AlreadyRunningMessage(name)));
          return;
        }
        spawned := new BotProcess(botPath, name, socket, logs);
        processes := processes[name := spawned];
        statuses := statuses[name := Running];
        socket.Emit(BotStarted(name));
    }

    /** `stopBot`: kill and forget the bot's process, or report that it is not running. */
    method StopBot(name: string, socket: Socket)
      requires Valid()
      modifies this, socket, if name in processes then {processes[name]} else {}
      ensures Valid()
      ensures Model() == Stop(old(Model()), name).registry
      ensures socket.outbox == old(socket.outbox) + Stop(old(Model()), name).events
      ensures name in old(processes) ==> old(processes)[name].killed && old(processes)[name].stdin == old(processes[name].stdin)
    {
      if name !in processes {
        socket.Emit(Error(NotRunningMessage(name)));
        return;
      }
      var botProcess := processes[name];
      botProcess.Kill();
      processes := processes - {name};
      statuses := statuses[name := Stopped];
      socket.Emit(BotStopped(name));
    }

    /**
     * `restartBot`: sends `stopBot` and then `startBot` back to the client;
     * the server's own state is untouched.
     */
    method RestartBot(name: string, socket: Socket)
      modifies socket
      ensures socket.outbox == old(socket.outbox) + [StopBotRequest(name), StartBotRequest(name)]
      ensures Model() == old(Model())
    {
      socket.Emit(StopBotRequest(name));
      socket.Emit(StartBotRequest(name));
    }

    /** `sendCommand`: writes the command and a newline to the bot's stdin, or reports that it is not running. */
    method SendCommand(name: string, command: string, socket: Socket)
      requires Valid()
      modifies socket, if name in processes then {processes[name]} else {}
      ensures !IsRunning(Model(), name) ==> socket.outbox == old(socket.outbox) + [Error(NotRunningMessage(name))]
      ensures IsRunning(Model(), name) ==>
        && processes[name].stdin == old(processes[name].stdin) + [command + "\n"]
        && processes[name].killed == old(processes[name].killed)
        && socket.outbox == old(socket.outbox)
      ensures Model() == old(Model())
    {
      if name !in processes {
        socket.Emit(Error(NotRunningMessage(name)));
        return;
      }
      var botProcess := processes[name];
      botProcess.WriteStdin(command + "\n");
    }
  }

  /** A fresh server: commanding a bot that was never started fails, and it has no log. */
  method FreshServerSession(name: string)
  {
    var logs := new LogStore(map[]);
    var server := new Server(logs);
    var client := new Socket();
    server.SendCommand(name, "ping", client);
    assert client.outbox == [Error(NotRunningMessage(name))];
    assert GetLog(logs.files, name) == LogMissing(404, "Log not found");
  }

  /**
   * Start a bot, let it print and exit on its own, start it again, command
   * it and stop it.
   */
  method StartStopSession(npm: seq<NpmEvent>)
    requires InstallBotDependencies(npm) == Resolved
  {
    var logs := new LogStore(map[]);
    var server := new Server(logs);
    var client := new Socket();

    var alpha := server.StartBot("alpha", {}, GitOk, npm, client);
    assert alpha != null && client.outbox == [BotStarted("alpha")];

    alpha.OnStdout("ready");
    alpha.OnClose(Exited(0));
    assert client.outbox == [BotStarted("alpha"), BotOutput("alpha", "ready"), BotClosed("alpha")];
    assert FileText(logs.files, LogPath("alpha")) == "ready" + "\nBot alpha closed\n";
    // The process exited on its own, yet the registry still holds it.
    assert server.processes == map["alpha" := alpha];

    var again := server.StartBot("alpha", {BotPath("alpha")}, GitFailed("pull failed"), npm, client);
    assert again == null && client.outbox[3] == Error(AlreadyRunningMessage("alpha"));

    assert server.processes["alpha"] == alpha && alpha.stdin == [];
    server.SendCommand("alpha", "ping", client);
    assert alpha.stdin == ["ping" + "\n"];

    server.StopBot("alpha", client);
    assert client.outbox[4] == BotStopped("alpha");
    assert alpha.killed && server.processes == map[];
  }
}
