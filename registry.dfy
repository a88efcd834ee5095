/**
 * The server's registry as values: the two dictionaries `botProcesses`
 * (name to process handle) and `botStatuses` (name to status text), the
 * decisions the socket handlers take on them, and the two HTTP queries.
 * The handle type `H` is left open; the server class instantiates it with
 * its process objects.
 */
module Registry {
  import opened Paths
  import opened Protocol
  import opened BotManager

  const Running: string := "Running"
  const Stopped: string := "Stopped"

  /** The repository every bot is cloned from. */
  const RepoUrl: string := "https://github.com/afarhansib/bonk"

  datatype State<H> = State(processes: map<string, H>, statuses: map<string, string>)

  /** The registry of a freshly started server. */
  function Empty<H>(): State<H> {
    State(map[], map[])
  }

  /**
   * The invariant the handlers keep: a name holds a process exactly when
   * its status is `Running`, and every recorded status is `Running` or
   * `Stopped`.
   */
  predicate Consistent<H>(r: State<H>) {
    && (forall n | n in r.processes :: n in r.statuses && r.statuses[n] == Running)
    && (forall n | n in r.statuses && r.statuses[n] == Running :: n in r.processes)
    && (forall n | n in r.statuses :: r.statuses[n] == Running || r.statuses[n] == Stopped)
  }

  /** `if (botProcesses[botName])`, read as a lookup of the object's own entries. */
  predicate IsRunning<H>(r: State<H>, name: string) {
    name in r.processes
  }

  // ---------------------------------------------------------------------------
  // startBot

  /** Where the awaited download and install of `startBot` leave it. */
  datatype Preparation = Ready(path: string) | PrepFailed(message: string) | Waiting

  /**
   * The two awaited steps of `startBot`: download, then install in the
   * downloaded directory. `Waiting` is an install that never settles, after
   * which the handler never resumes.
   */
  function Prepare(name: string, existing: set<string>, git: GitOutcome, npm: seq<NpmEvent>): (p: Preparation)
    ensures p.Ready? <==> (BotPath(name) in existing || git.GitOk?) && InstallBotDependencies(npm) == Resolved
    ensures p.Ready? ==> p.path == BotPath(name)
    ensures p.Waiting? <==> (BotPath(name) in existing || git.GitOk?) && InstallBotDependencies(npm) == Pending
    ensures p.PrepFailed? ==>
      p.message == (if BotPath(name) !in existing && git.GitFailed? then git.message else InstallBotDependencies(npm).message)
  {
    var d := DownloadBotRepo(RepoUrl, name, existing, git);
    match d.result
    case Fail(m) => PrepFailed(m)
    case Ok(path) =>
      match InstallBotDependencies(npm)
      case Pending => Waiting
      case Resolved => Ready(path)
      case Rejected(m) => PrepFailed(m)
  }

  /** The branch `startBot` takes once its awaits are over. */
  datatype StartCase = Launch(path: string) | AlreadyRunning | StartFailed(reason: string) | Suspended

  /** The registry is consulted only after download and install have succeeded. */
  function DecideStart<H>(r: State<H>, name: string, p: Preparation): (c: StartCase)
    ensures c.Launch? <==> p.Ready? && !IsRunning(r, name)
    ensures c == AlreadyRunning <==> p.Ready? && IsRunning(r, name)
    ensures c.Launch? ==> c.path == p.path
    ensures c.StartFailed? <==> p.PrepFailed?
    ensures c.StartFailed? ==> c.reason == p.message
  {
    match p
    case Waiting => Suspended
    case PrepFailed(m) => StartFailed(m)
    case Ready(path) => if IsRunning(r, name) then AlreadyRunning else Launch(path)
  }

  /** What `startBot` emits to the requesting client in each branch. */
  function StartEvents(name: string, c: StartCase): seq<Event> {
    match c
    case Launch(_) => [BotStarted(name)]
    case AlreadyRunning => [Error(AlreadyRunningMessage(name))]
    case StartFailed(m) => [Error(FailedToStartMessage(m))]
    case Suspended => []
  }

  /** Recording a freshly spawned process: the only way a name gains a handle. */
  function Register<H>(r: State<H>, name: string, h: H): (r': State<H>)
    requires !IsRunning(r, name)
    ensures Consistent(r) ==> Consistent(r')
    ensures IsRunning(r', name) && r'.processes[name] == h && name in r'.statuses && r'.statuses[name] == Running
    ensures forall n | n != name :: (n in r'.processes <==> n in r.processes) && (n in r'.statuses <==> n in r.statuses)
    ensures forall n | n != name && n in r.processes :: r'.processes[n] == r.processes[n]
    ensures forall n | n != name && n in r.statuses :: r'.statuses[n] == r.statuses[n]
  {
    State(r.processes[name := h], r.statuses[name := Running])
  }

  // ---------------------------------------------------------------------------
  // stopBot

  datatype Step<H> = Step(registry: State<H>, events: seq<Event>)

  /** `stopBot`: forget the handle and mark the bot stopped, or report that it is not running. */
  function Stop<H>(r: State<H>, name: string): (s: Step<H>)
    ensures !IsRunning(r, name) ==> s == Step(r, [Error(NotRunningMessage(name))])
    ensures IsRunning(r, name) ==> s.events == [BotStopped(name)]
    ensures Consistent(r) ==> Consistent(s.registry)
    ensures !IsRunning(s.registry, name) && (IsRunning(r, name) ==> name in s.registry.statuses && s.registry.statuses[name] == Stopped)
    ensures forall n | n != name :: (n in s.registry.processes <==> n in r.processes) && (n in s.registry.statuses <==> n in r.statuses)
    ensures forall n | n != name && n in r.processes :: s.registry.processes[n] == r.processes[n]
    ensures forall n | n != name && n in r.statuses :: s.registry.statuses[n] == r.statuses[n]
  {
    if !IsRunning(r, name) then Step(r, [Error(NotRunningMessage(name))])
    else Step(State(r.processes - {name}, r.statuses[name := Stopped]), [BotStopped(name)])
  }

  /** Stopping a bot that was just registered gives back the handles from before, with the bot marked stopped. */
  lemma StopUndoesRegister<H>(r: State<H>, name: string, h: H)
    requires !IsRunning(r, name)
    ensures Stop(Register(r, name, h), name).registry == State(r.processes, r.statuses[name := Stopped])
  {
    assert Stop(Register(r, name, h), name).registry.processes == r.processes;
  }

  /** A second stop changes nothing and reports that the bot is not running. */
  lemma StopTwice<H>(r: State<H>, name: string)
    ensures Stop(Stop(r, name).registry, name) == Step(Stop(r, name).registry, [Error(NotRunningMessage(name))])
  {
  }

  // ---------------------------------------------------------------------------
  // GET /api/bots

  datatype BotInfo = BotInfo(name: string, status: string)

  datatype BotsResponse = BotList(bots: seq<BotInfo>) | BotsError(httpStatus: nat, error: string)

  /** `botStatuses[file] || 'Stopped'`: a missing or empty status reads as `Stopped`. */
  function StatusOf(statuses: map<string, string>, name: string): string {
    if name in statuses && statuses[name] != "" then statuses[name] else Stopped
  }

  /** `files.map(...)`: one entry per directory entry, in order. */
  function ListBots(entries: seq<string>, statuses: map<string, string>): (bots: seq<BotInfo>)
    ensures |bots| == |entries|
    ensures forall i | 0 <= i < |bots| :: bots[i].name == entries[i]
    ensures forall i | 0 <= i < |bots| ::
      bots[i].status == (if entries[i] in statuses && statuses[entries[i]] != "" then statuses[entries[i]] else Stopped)
  {
    if entries == [] then []
    else [BotInfo(entries[0], StatusOf(statuses, entries[0]))] + ListBots(entries[1..], statuses)
  }

  /** `GET /api/bots` over the outcome of reading the bot directory. */
  function GetBots(dir: Result<seq<string>>, statuses: map<string, string>): (resp: BotsResponse)
    ensures dir.Fail? <==> resp == BotsError(500, "Failed to read bot directory")
    ensures dir.Ok? ==> resp == BotList(ListBots(dir.value, statuses))
  {
    match dir
    case Fail(_) => BotsError(500, "Failed to read bot directory")
    case Ok(entries) => BotList(ListBots(entries, statuses))
  }

  /** Under the invariant, the listing shows `Running` exactly for the bots holding a process. */
  lemma ListingReflectsRegistry<H>(r: State<H>, entries: seq<string>)
    requires Consistent(r)
    ensures forall i | 0 <= i < |entries| ::
      ListBots(entries, r.statuses)[i].status == (if IsRunning(r, entries[i]) then Running else Stopped)
  {
  }

  // ---------------------------------------------------------------------------
  // GET /api/logs/:botName

  datatype LogResponse = LogFound(botName: string, log: string) | LogMissing(httpStatus: nat, error: string)

  /** `GET /api/logs/:botName` over the files of the log directory. */
  function GetLog(files: map<string, string>, name: string): (resp: LogResponse)
    ensures resp.LogMissing? <==> LogPath(name) !in files
    ensures resp.LogMissing? ==> resp == LogMissing(404, "Log not found")
    ensures resp.LogFound? ==> resp.botName == name && resp.log == files[LogPath(name)]
  {
    if LogPath(name) !in files then LogMissing(404, "Log not found")
    else LogFound(name, files[LogPath(name)])
  }

  /**
   * After a process named `name` has handled a non-empty run, the query
   * for `name` finds the earlier log extended by the run's text, and the
   * query for any other bot is unaffected.
   */
  lemma {:induction false} GetLogAfterRun(files: map<string, string>, name: string, run: seq<StreamEvent>, other: string)
    requires run != []
    requires other != name
    ensures GetLog(ApplyRun(files, name, run), name) == LogFound(name, FileText(files, LogPath(name)) + RunLog(name, run))
    ensures GetLog(ApplyRun(files, name, run), other) == GetLog(files, other)
  {
    var after := ApplyRun(files, name, run);
    ApplyRunAppends(files, name, run);
    ApplyRunKeys(files, name, run);
    if LogPath(other) == LogPath(name) {
      LogPathInjective(other, name);
    }
  }

  /** A run only ever adds its own log file to the directory. */
  lemma {:induction false} ApplyRunKeys(files: map<string, string>, name: string, run: seq<StreamEvent>)
    ensures ApplyRun(files, name, run).Keys == if run == [] then files.Keys else files.Keys + {LogPath(name)}
    decreases |run|
  {
    if run != [] {
      ApplyRunKeys(AppendText(files, LogPath(name), LogEntry(name, run[0])), name, run[1..]);
    }
  }
}
