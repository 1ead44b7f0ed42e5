/** The logger backend, reduced to what the call-logging feature sees of it: which levels are
    enabled, and the leveled messages it has been handed, in order. */
module Logging {
  import opened Levels

  datatype Entry = Entry(level: Level, message: string)

  class Logger {
    /** The levels for which the backend reports itself enabled. */
    const enabled: set<Level>
    /** Every message handed to the logger so far, oldest first. */
    var entries: seq<Entry>

    constructor (enabled: set<Level>)
      ensures this.enabled == enabled && entries == []
    {
      this.enabled := enabled;
      entries := [];
    }

    predicate IsTraceEnabled() { TRACE in enabled }
    predicate IsDebugEnabled() { DEBUG in enabled }
    predicate IsInfoEnabled() { INFO in enabled }

    method Info(message: string)
      modifies this`entries
      ensures entries == old(entries) + [Entry(INFO, message)]
    {
      entries := entries + [Entry(INFO, message)];
    }

    method Debug(message: string)
      modifies this`entries
      ensures entries == old(entries) + [Entry(DEBUG, message)]
    {
      entries := entries + [Entry(DEBUG, message)];
    }

    method Trace(message: string)
      modifies this`entries
      ensures entries == old(entries) + [Entry(TRACE, message)]
    {
      entries := entries + [Entry(TRACE, message)];
    }
  }
}
