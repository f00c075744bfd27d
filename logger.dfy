/**
 * The console logger: a message is written only when its level is no more
 * verbose than the configured one, and every written line carries a tag.
 * A logging call is modelled as the line it would write, or `None`.
 */
module Logger {
  import opened Wrappers
  import opened Builtins
  import opened Config

  /** The levels from least to most verbose, as the logger ranks them. */
  const Levels: seq<string> := ["error", "warn", "info", "debug"]

  /** The console stream a line goes to: `console.log`, `console.error` or `console.warn`. */
  datatype Channel = ConsoleLog | ConsoleError | ConsoleWarn

  /** One line written to the console. */
  datatype Emission = Emission(channel: Channel, line: string)

  /**
   * `shouldLog(level)`: the message's position in `Levels` is at most the
   * configured level's position. A level missing from `Levels` has
   * position -1 and so is always written.
   */
  function ShouldLog(configured: string, level: string): (b: bool)
    ensures level !in Levels ==> b
    ensures configured in Levels && level in Levels ==>
      (b <==> exists i, j :: 0 <= i <= j < |Levels| && Levels[i] == level && Levels[j] == configured)
  {
    IndexOf(Levels, level) <= IndexOf(Levels, configured)
  }

  /** An independent ranking of the levels: how much each one lets through. */
  function Verbosity(level: LogLevel): nat {
    if level == "error" then 0
    else if level == "warn" then 1
    else if level == "info" then 2
    else 3
  }

  /** Emits `[TAG] message` on `channel` when `level` passes the configured level. */
  function Gate(configured: LogLevel, level: string, channel: Channel, tag: string, message: string): Option<Emission> {
    if ShouldLog(configured, level) then Some(Emission(channel, tag + message)) else None
  }

  /** `logger.info(message)`. */
  function Info(configured: LogLevel, message: string): (r: Option<Emission>)
    ensures r.Some? <==> configured == "info" || configured == "debug"
    ensures r.Some? ==> r.value.channel == ConsoleLog && r.value.line == "[INFO] " + message
  {
    Gate(configured, "info", ConsoleLog, "[INFO] ", message)
  }

  /** `logger.error(message)`. */
  function Error(configured: LogLevel, message: string): (r: Option<Emission>)
    ensures r.Some?
    ensures r.value.channel == ConsoleError && r.value.line == "[ERROR] " + message
  {
    Gate(configured, "error", ConsoleError, "[ERROR] ", message)
  }

  /** `logger.warn(message)`. */
  function Warn(configured: LogLevel, message: string): (r: Option<Emission>)
    ensures r.Some? <==> configured != "error"
    ensures r.Some? ==> r.value.channel == ConsoleWarn && r.value.line == "[WARN] " + message
  {
    Gate(configured, "warn", ConsoleWarn, "[WARN] ", message)
  }

  /** `logger.debug(message)`. */
  function Debug(configured: LogLevel, message: string): (r: Option<Emission>)
    ensures r.Some? <==> configured == "debug"
    ensures r.Some? ==> r.value.channel == ConsoleLog && r.value.line == "[DEBUG] " + message
  {
    Gate(configured, "debug", ConsoleLog, "[DEBUG] ", message)
  }

  /** The logger's ranking agrees with the independent one. */
  lemma ShouldLogMatchesVerbosity(configured: LogLevel, level: LogLevel)
    ensures ShouldLog(configured, level) <==> Verbosity(level) <= Verbosity(configured)
  {
  }

  /** Both lists hold the same four level names. */
  lemma LevelListsAgree()
    ensures forall s :: s in Levels <==> s in LogLevelNames
  {
  }

  /** Every configured level lets its own messages through. */
  lemma ShouldLogReflexive(level: LogLevel)
    ensures ShouldLog(level, level)
  {
  }

  /**
   * Gating is monotone: a message written at some configured level is
   * written at every more verbose configured level too.
   */
  lemma ShouldLogMonotone(c1: LogLevel, c2: LogLevel, level: string)
    requires Verbosity(c1) <= Verbosity(c2)
    requires ShouldLog(c1, level)
    ensures ShouldLog(c2, level)
  {
  }
}
