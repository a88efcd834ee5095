/**
 * What travels on a client's socket, and the socket itself as an outbox of
 * emitted messages.
 */
module Protocol {

  /** A settled asynchronous step: its value, or the message of the error it threw. */
  datatype Result<T> = Ok(value: T) | Fail(message: string)

  /** A message the server emits to one client. */
  datatype Event =
    | BotStarted(name: string)
    | BotStopped(name: string)
    | BotOutput(name: string, output: string)
    | BotError(name: string, error: string)
    | BotClosed(name: string)
    | Error(message: string)
      /** `stopBot` and `startBot` echoed back to the client by a restart request. */
    | StopBotRequest(botName: string)
    | StartBotRequest(botName: string)

  function NotRunningMessage(name: string): string {
    "Bot " + name + " is not running"
  }

  function AlreadyRunningMessage(name: string): string {
    "Bot " + name + " is already running"
  }

  function FailedToStartMessage(reason: string): string {
    "Failed to start bot: " + reason
  }

  /** One client connection; `outbox` is everything emitted to it, oldest first. */
  class Socket {
    var outbox: seq<Event>

    constructor ()
      ensures outbox == []
    {
      outbox := [];
    }

    method Emit(e: Event)
      modifies this
      ensures outbox == old(outbox) + [e]
    {
      outbox := outbox + [e];
    }
  }
}
