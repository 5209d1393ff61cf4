/** The browser adapter: a line carrying the timestamp, the level tag, the
    source and the message, passed to the console behind a `%c` style
    placeholder together with a per-level CSS string. */
module Browser {
  import opened Types
  import opened Strings

  /** An adapter instance holds nothing but its configured minimum level. */
  datatype BrowserLogger = BrowserLogger(loglevel: Level)

  function NewBrowserLogger(options: LoggerOptions): BrowserLogger
  {
    BrowserLogger(options.loglevel)
  }

  /** The console directive that applies the second argument as a style. */
  const StylePlaceholder: string := "%c"

  /** Reference style table: gray, black, and red for both warn and err. */
  function Css(level: Level): string
  {
    match level
    case Trace => "color: gray;"
    case Info => "color: black;"
    case Warn => "color: red;"
    case Err => "color: red;"
  }

  /** The unstyled line. */
  function Format(ts: string, level: Level, source: string, message: string): string
  {
    Concat([ts, " ", "[" + Tag(level) + "]", " ", source, ": ", message])
  }

  /** The promise this module resolves once and returns from every call. */
  const SharedCompletion: Completion := BrowserResolved

  /** The private `write`: suppression test first, then one console call
      with the placeholder-led line and the style as its two arguments. */
  function Emit(logger: BrowserLogger, level: Level, source: string, message: string,
                 css: string, ts: string): (r: Option<Write>)
    ensures r.None? <==> Below(level, logger.loglevel)
    ensures r.Some? ==> r.value.channel == Route(level)
    ensures r.Some? ==> |r.value.args| == 2 && StylePlaceholder <= r.value.args[0] && r.value.args[1] == css
  {
    if Suppressed(logger.loglevel, level) then None
    else
      var formatted := Format(ts, level, source, message);
      if level.Warn? then Some(Write(WarnChannel, ["%c" + formatted, css]))
      else if level.Err? then Some(Write(ErrorChannel, ["%c" + formatted, css]))
      else Some(Write(LogChannel, ["%c" + formatted, css]))
  }

  function Trace(logger: BrowserLogger, s: string, m: string, ts: string): Effect
  {
    Effect(Emit(logger, Types.Trace, s, m, "color: gray;", ts), SharedCompletion)
  }

  function Info(logger: BrowserLogger, s: string, m: string, ts: string): Effect
  {
    Effect(Emit(logger, Types.Info, s, m, "color: black;", ts), SharedCompletion)
  }

  function Warn(logger: BrowserLogger, s: string, m: string, ts: string): Effect
  {
    Effect(Emit(logger, Types.Warn, s, m, "color: red;", ts), SharedCompletion)
  }

  function Err(logger: BrowserLogger, s: string, m: string, ts: string): Effect
  {
    Effect(Emit(logger, Types.Err, s, m, "color: red;", ts), SharedCompletion)
  }

  /** Dispatches a call to the public operation named after its level. */
  function Invoke(logger: BrowserLogger, call: Call): Effect
  {
    match call.level
    case Trace => Trace(logger, call.source, call.message, call.timestamp)
    case Info => Info(logger, call.source, call.message, call.timestamp)
    case Warn => Warn(logger, call.source, call.message, call.timestamp)
    case Err => Err(logger, call.source, call.message, call.timestamp)
  }

  /** Each public operation: no write when the level is below the minimum,
      otherwise exactly one write, on the level's stream, whose arguments
      are the placeholder-led line and the level's style. */
  lemma InvokeSpec(logger: BrowserLogger, call: Call)
    ensures Invoke(logger, call).write.None? <==> Below(call.level, logger.loglevel)
    ensures Invoke(logger, call).done == SharedCompletion
    ensures Invoke(logger, call).write.Some? ==>
      Invoke(logger, call).write.value ==
        Write(Route(call.level),
          [StylePlaceholder + Format(call.timestamp, call.level, call.source, call.message),
           Css(call.level)])
  {
  }

  /** Warnings and errors share a style; they differ in tag and stream. */
  lemma WarnErrShareStyle()
    ensures Css(Types.Warn) == Css(Types.Err)
    ensures Tag(Types.Warn) != Tag(Types.Err) && Route(Types.Warn) != Route(Types.Err)
    ensures forall a: Level, b: Level :: Css(a) == Css(b) && a != b ==> {a, b} == {Types.Warn, Types.Err}
  {
  }

  /** The first argument carries the bracketed level tag, the source and
      the message. */
  lemma LineContents(logger: BrowserLogger, call: Call)
    requires !Below(call.level, logger.loglevel)
    ensures Invoke(logger, call).write.Some?
    ensures var line := Invoke(logger, call).write.value.args[0];
      && Contains(line, "[" + Tag(call.level) + "]")
      && Contains(line, call.source)
      && Contains(line, call.message)
  {
    InvokeSpec(logger, call);
    var f := Format(call.timestamp, call.level, call.source, call.message);
    var line := Invoke(logger, call).write.value.args[0];
    var pieces := [call.timestamp, " ", "[" + Tag(call.level) + "]", " ", call.source, ": ", call.message];
    assert line == StylePlaceholder + f + [];
    ContainsPiece(pieces, 2);
    ContainsPiece(pieces, 4);
    ContainsPiece(pieces, 6);
    ContainsWithin(StylePlaceholder, f, [], "[" + Tag(call.level) + "]");
    ContainsWithin(StylePlaceholder, f, [], call.source);
    ContainsWithin(StylePlaceholder, f, [], call.message);
  }
}
