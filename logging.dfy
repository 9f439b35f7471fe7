/** The `log` crate's level filter. Its macros (`info!`, `debug!`, ...) evaluate their
    format arguments only when the message's level passes the filter, so a panicking
    expression inside a log call panics only under a permissive enough filter. */
module Logging {

  /** The maximum level the installed logger lets through (`log::max_level()`). */
  datatype LevelFilter = Off | Error | Warn | Info | Debug | Trace {
    function Rank(): nat {
      match this
      case Off => 0
      case Error => 1
      case Warn => 2
      case Info => 3
      case Debug => 4
      case Trace => 5
    }
  }

  /** Whether `info!` arguments are evaluated under `filter`. */
  predicate InfoEnabled(filter: LevelFilter) {
    filter.Rank() >= Info.Rank()
  }

  /** Whether `debug!` arguments are evaluated under `filter`. */
  predicate DebugEnabled(filter: LevelFilter) {
    filter.Rank() >= Debug.Rank()
  }

}
