/**
 * The gate in front of the logger. The condition on
 * src/Twitter.php:84 assigns the level (`=`) where it compares (`==`): the
 * assignment's value, "debug", is always truthy, so with debug mode off every
 * message is dropped whatever its level. `ForwardsAsWritten` models that line
 * and is what the client uses; `Forwards` is the comparison the line
 * evidently means.
 */
module Logging {

  const DebugLevel := "debug"

  /** PHP truthiness of a string. */
  predicate Truthy(s: string) {
    s != "" && s != "0"
  }

  /** Line 84 as written: `!debug && ($logLevel = 'debug')`. */
  predicate SuppressedAsWritten(debug: bool, level: string) {
    !debug && Truthy(DebugLevel)
  }

  predicate ForwardsAsWritten(hasLogger: bool, debug: bool, level: string)
    ensures ForwardsAsWritten(hasLogger, debug, level) ==> hasLogger && debug
  {
    hasLogger && !SuppressedAsWritten(debug, level)
  }

  /** The intended gate: without debug mode only debug-level messages are dropped. */
  predicate Forwards(hasLogger: bool, debug: bool, level: string) {
    hasLogger && !(!debug && level == DebugLevel)
  }

  /** As written, the level plays no part: a message passes exactly when there is a logger and debug is on. */
  lemma AsWrittenIgnoresLevel(hasLogger: bool, debug: bool, level: string)
    ensures ForwardsAsWritten(hasLogger, debug, level) <==> hasLogger && debug
  {
  }

  /** An error-level message with debug off: dropped as written, forwarded as intended. */
  lemma AsWrittenDropsErrors()
    ensures !ForwardsAsWritten(true, false, "error")
    ensures Forwards(true, false, "error")
  {
  }

  /** Intended: with a logger, a message is dropped exactly when it is debug-level and debug mode is off. */
  lemma ForwardsDropsOnlyDebug(hasLogger: bool, debug: bool, level: string)
    ensures Forwards(hasLogger, debug, level) <==> hasLogger && (debug || level != DebugLevel)
    ensures hasLogger && debug ==> Forwards(hasLogger, debug, level)
  {
  }

  /** At the debug level, the only level `query` logs at, both gates agree. */
  lemma GatesAgreeAtDebugLevel(hasLogger: bool, debug: bool)
    ensures Forwards(hasLogger, debug, DebugLevel) == ForwardsAsWritten(hasLogger, debug, DebugLevel)
  {
  }
}
