/** The slf4j log levels (org.slf4j.event.Level) as far as the call-logging feature uses them. */
module Levels {

  datatype Level = ERROR | WARN | INFO | DEBUG | TRACE

  /** The string form of a level, as it appears inside messages. */
  function Name(l: Level): string
  {
    match l
    case ERROR => "ERROR"
    case WARN => "WARN"
    case INFO => "INFO"
    case DEBUG => "DEBUG"
    case TRACE => "TRACE"
  }

  /** The levels the call-logging feature knows how to log at. */
  predicate Supported(l: Level)
  {
    l == INFO || l == DEBUG || l == TRACE
  }
}
