/** The null adapter: the null-object stand-in for a logger. Its minimum
    level is fixed at `err`, it takes no options, and its four operations
    touch no console stream and hand back one shared completion. */
module Null {
  import opened Types

  /** An adapter instance; it carries no configuration at all. */
  datatype NullLogger = NullLogger

  function NewNullLogger(): NullLogger
  {
    NullLogger
  }

  /** The reported minimum level: of all messages, only `err` ones would
      clear it. */
  function Loglevel(logger: NullLogger): (l: Level)
    ensures forall m: Level :: !Below(m, l) <==> m == Types.Err
  {
    Types.Err
  }

  /** The promise this module resolves once and returns from every call. */
  const SharedCompletion: Completion := NullResolved

  function Trace(logger: NullLogger, source: string, message: string): Effect
  {
    Effect(None, SharedCompletion)
  }

  function Info(logger: NullLogger, source: string, message: string): Effect
  {
    Effect(None, SharedCompletion)
  }

  function Warn(logger: NullLogger, source: string, message: string): Effect
  {
    Effect(None, SharedCompletion)
  }

  function Err(logger: NullLogger, source: string, message: string): Effect
  {
    Effect(None, SharedCompletion)
  }

  /** Dispatches a call to the public operation named after its level; the
      clock reading is never taken. */
  function Invoke(logger: NullLogger, call: Call): Effect
  {
    match call.level
    case Trace => Trace(logger, call.source, call.message)
    case Info => Info(logger, call.source, call.message)
    case Warn => Warn(logger, call.source, call.message)
    case Err => Err(logger, call.source, call.message)
  }

  /** Any two calls, whatever their level, source or message, have the
      same effect: no write, and the shared completion. */
  lemma Interchangeable(logger: NullLogger, c1: Call, c2: Call)
    ensures Invoke(logger, c1) == Invoke(logger, c2)
    ensures Invoke(logger, c1).write.None?
    ensures Invoke(logger, c1).done == SharedCompletion
  {
  }
}
