/** The instance logger, reduced to the debug messages it has received. */
module Logging {

  /** The debug message for a registration value that is promise-like. */
  const NotOverridable: string := "Promise like plugin function cannot be overridden."

  class Logger {
    /** Debug messages, oldest first. */
    var debugs: seq<string>

    constructor ()
      ensures debugs == []
    {
      debugs := [];
    }

    /** `log.debug(msg)`. */
    method Debug(msg: string)
      modifies this
      ensures debugs == old(debugs) + [msg]
    {
      debugs := debugs + [msg];
    }
  }
}
