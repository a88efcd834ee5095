/**
 * The registry lookups as written. `botProcesses` and `botStatuses` are
 * plain JavaScript objects, so indexing them also finds the members every
 * object inherits from `Object.prototype`, all of which are truthy. A bot
 * named after one of them looks registered when it is not, and is listed
 * without a status. The rest of the model uses the intended own-entry
 * lookups, `Registry.IsRunning` and `Registry.StatusOf`.
 */
module Findings {
  import opened Protocol
  import opened Registry

  /** Names a plain object inherits from `Object.prototype`. */
  const InheritedNames: set<string> := {
    "constructor", "__proto__", "toString", "toLocaleString", "valueOf",
    "hasOwnProperty", "isPrototypeOf", "propertyIsEnumerable",
    "__defineGetter__", "__defineSetter__", "__lookupGetter__", "__lookupSetter__"
  }

  /** What `botProcesses[botName]` yields. */
  datatype Lookup<H> = OwnEntry(handle: H) | InheritedMember | Undefined

  function LookupAsWritten<H>(r: State<H>, name: string): (l: Lookup<H>)
    ensures l.Undefined? <==> name !in r.processes && name !in InheritedNames
  {
    if name in r.processes then OwnEntry(r.processes[name])
    else if name in InheritedNames then InheritedMember
    else Undefined
  }

  /** The branch `stopBot` takes as written. */
  datatype StopBranch = ReportNotRunning | KillHandle | KillInheritedMember

  /**
   * `if (!botProcess)` then report, else `botProcess.kill()`: on an
   * inherited member there is no `kill` to call, so the handler throws a
   * `TypeError` and emits nothing.
   */
  function StopBranchAsWritten<H>(r: State<H>, name: string): (b: StopBranch)
    ensures b == ReportNotRunning <==> LookupAsWritten(r, name).Undefined?
  {
    match LookupAsWritten(r, name)
    case Undefined => ReportNotRunning
    case OwnEntry(_) => KillHandle
    case InheritedMember => KillInheritedMember
  }

  /** `startBot` as written: the already-running check is the same truthiness test. */
  function DecideStartAsWritten<H>(r: State<H>, name: string, p: Preparation): (c: StartCase)
    ensures c.Launch? <==> p.Ready? && LookupAsWritten(r, name).Undefined?
  {
    match p
    case Waiting => Suspended
    case PrepFailed(m) => StartFailed(m)
    case Ready(path) => if LookupAsWritten(r, name).Undefined? then Launch(path) else AlreadyRunning
  }

  /** The branch `sendCommand` takes as written. */
  datatype SendBranch = ReportNotRunningOnSend | WriteHandle | WriteInheritedMember

  /**
   * `if (!botProcess)` then report, else `botProcess.stdin.write(...)`: an
   * inherited member has no `stdin`, so the handler throws a `TypeError`
   * and emits nothing.
   */
  function SendBranchAsWritten<H>(r: State<H>, name: string): (b: SendBranch)
    ensures b == ReportNotRunningOnSend <==> LookupAsWritten(r, name).Undefined?
    ensures b == WriteHandle <==> IsRunning(r, name)
  {
    match LookupAsWritten(r, name)
    case Undefined => ReportNotRunningOnSend
    case OwnEntry(_) => WriteHandle
    case InheritedMember => WriteInheritedMember
  }

  /** What `botStatuses[file] || 'Stopped'` yields: a text, or an inherited member (a function or object, never a status). */
  datatype StatusValue = StatusText(text: string) | InheritedStatus

  /** The listing's status expression as written: an own entry shadows the inherited member of the same name. */
  function StatusAsWritten(statuses: map<string, string>, name: string): (v: StatusValue)
    ensures v.InheritedStatus? <==> name !in statuses && name in InheritedNames
    ensures v.StatusText? ==> v.text == StatusOf(statuses, name)
  {
    if name in statuses then StatusText(if statuses[name] != "" then statuses[name] else Stopped)
    else if name in InheritedNames then InheritedStatus
    else StatusText(Stopped)
  }

  /**
   * On a fresh server, stopping `constructor` as written does not report
   * that the bot is not running; the intended `Stop` does.
   */
  lemma StopConstructorOnFreshServer()
    ensures StopBranchAsWritten(Empty<int>(), "constructor") == KillInheritedMember
    ensures Stop(Empty<int>(), "constructor").events == [Error(NotRunningMessage("constructor"))]
  {
  }

  /**
   * On a fresh server, starting `constructor` as written always reports
   * that it is already running, however download and install went; the
   * intended `DecideStart` launches it.
   */
  lemma StartConstructorOnFreshServer(path: string)
    ensures DecideStartAsWritten(Empty<int>(), "constructor", Ready(path)) == AlreadyRunning
    ensures DecideStart(Empty<int>(), "constructor", Ready(path)) == Launch(path)
  {
  }

  /**
   * On a fresh server, commanding `constructor` as written takes the write
   * branch and throws, although no bot of that name runs; the intended
   * `Server.SendCommand` reports that it is not running.
   */
  lemma SendConstructorOnFreshServer()
    ensures SendBranchAsWritten(Empty<int>(), "constructor") == WriteInheritedMember
    ensures !IsRunning(Empty<int>(), "constructor")
  {
  }

  /**
   * A checkout directory named `constructor` is listed as written with an
   * inherited member for its status, which serialises to no status at all;
   * the intended `ListBots` shows it `Stopped`.
   */
  lemma ListConstructorOnFreshServer()
    ensures StatusAsWritten(map[], "constructor") == InheritedStatus
    ensures ListBots(["constructor"], map[]) == [BotInfo("constructor", Stopped)]
  {
  }

  /** For names outside the inherited ones, the code as written and the intended lookup agree. */
  lemma {:induction false} AsWrittenAgreesOffInheritedNames<H>(r: State<H>, name: string, p: Preparation)
    requires name !in InheritedNames
    ensures StopBranchAsWritten(r, name) == ReportNotRunning <==> !IsRunning(r, name)
    ensures SendBranchAsWritten(r, name) == ReportNotRunningOnSend <==> !IsRunning(r, name)
    ensures DecideStartAsWritten(r, name, p) == DecideStart(r, name, p)
    ensures StatusAsWritten(r.statuses, name) == StatusText(StatusOf(r.statuses, name))
  {
  }
}
