/**
 * Where a bot's checkout and its log live. Both source files compute the
 * two roots as the directories `bots` and `logs` beside the source
 * directory; the model writes them relative to that install root.
 */
module Paths {

  /** The directory holding one checkout per bot. */
  const BotDir: string := "bots"

  /** The directory holding one `<name>.log` per bot. */
  const LogDir: string := "logs"

  /** `path.join(dir, entry)` for a single path segment `entry`. */
  function Join(dir: string, entry: string): string {
    dir + "/" + entry
  }

  /** `BOT_DIR/<name>`, the checkout of bot `name`. */
  function BotPath(name: string): string {
    Join(BotDir, name)
  }

  /** `LOG_DIR/<name>.log`, the log file of bot `name`. */
  function LogPath(name: string): string {
    Join(LogDir, name + ".log")
  }

  /** A checkout path is `bots/` followed by the bot's name. */
  lemma BotPathParts(name: string)
    ensures BotPath(name)[..|BotDir| + 1] == BotDir + "/" && BotPath(name)[|BotDir| + 1..] == name
  {
  }

  /** A log path is `logs/`, the bot's name, then `.log`. */
  lemma LogPathParts(name: string)
    ensures var p := LogPath(name);
      && |p| == |LogDir| + 1 + |name| + 4
      && p[..|LogDir| + 1] == LogDir + "/" && p[|LogDir| + 1..|p| - 4] == name && p[|p| - 4..] == ".log"
  {
  }

  /** Two bots never share a checkout directory. */
  lemma BotPathInjective(a: string, b: string)
    requires BotPath(a) == BotPath(b)
    ensures a == b
  {
    var k := |BotDir| + 1;
    assert BotPath(a)[k..] == a;
    assert BotPath(b)[k..] == b;
  }

  /** Two bots never share a log file. */
  lemma LogPathInjective(a: string, b: string)
    requires LogPath(a) == LogPath(b)
    ensures a == b
  {
    var k := |LogDir| + 1;
    assert |a| == |b|;
    assert LogPath(a)[k..k + |a|] == a;
    assert LogPath(b)[k..k + |b|] == b;
  }

  /** A log file is neither a bot checkout nor inside one. */
  lemma BotPathIsNotLogPath(a: string, b: string)
    ensures BotPath(a) != LogPath(b)
    ensures !(BotPath(a) + "/" <= LogPath(b))
  {
    assert BotPath(a)[0] == 'b' && LogPath(b)[0] == 'l';
  }
}
