/** The terminal adapter: a line carrying the timestamp, the level tag and
    an optional `hostname(pid)` prefix, wrapped in a per-level ANSI colour
    and a reset code, and written to the console stream the level selects. */
module Cli {
  import opened Types
  import opened Strings

  /** An adapter instance: the configured minimum level and the two values
      read from the environment once, at construction. The empty hostname
      stands for an unavailable one; a pid of `Some(0)` is as good as none,
      because the prefix tests both values for truthiness. */
  datatype CliLogger = CliLogger(loglevel: Level, hostname: string, pid: Option<nat>)

  /** Builds an instance from its options and what the runtime reports. */
  function NewCliLogger(options: LoggerOptions, hostname: string, pid: Option<nat>): CliLogger
  {
    CliLogger(options.loglevel, hostname, pid)
  }

  /** The terminal's reset sequence, closing every coloured line. */
  const Reset: string := "\U{1B}[0m"

  /** Reference colour table: gray, white, yellow and red. */
  function Colour(level: Level): string
  {
    match level
    case Trace => "\U{1B}[90m"
    case Info => "\U{1B}[37m"
    case Warn => "\U{1B}[33m"
    case Err => "\U{1B}[31m"
  }

  /** The process identifier is printed only when it is a non-zero number. */
  predicate PidShown(pid: Option<nat>)
  {
    pid.Some? && pid.value != 0
  }

  /** The identification printed before the source tag: the hostname,
      then the pid in parentheses, each left out when unavailable. */
  function Prefix(hostname: string, pid: Option<nat>): (p: string)
    ensures p == "" <==> hostname == "" && !PidShown(pid)
    ensures hostname <= p
    ensures PidShown(pid) ==> p == hostname + "(" + Decimal(pid.value) + ")"
    ensures !PidShown(pid) ==> p == hostname
  {
    if hostname != "" && PidShown(pid) then hostname + "(" + Decimal(pid.value) + ")"
    else if hostname != "" then hostname
    else if PidShown(pid) then "(" + Decimal(pid.value) + ")"
    else ""
  }

  /** The uncoloured line; an empty prefix drops its colon as well. */
  function Format(ts: string, level: Level, prefix: string, source: string, message: string): string
  {
    var lvl := "[" + Tag(level) + "]";
    if prefix != "" then Concat([ts, " ", lvl, " ", prefix, ": ", source, ": ", message])
    else Concat([ts, " ", lvl, " ", source, ": ", message])
  }

  /** The promise this module resolves once and returns from every call. */
  const SharedCompletion: Completion := CliResolved

  /** The private `write`: suppression test first, then one console call
      whose single argument is the coloured line. */
  function Emit(logger: CliLogger, level: Level, source: string, message: string,
                 colour: string, ts: string): (r: Option<Write>)
    ensures r.None? <==> Below(level, logger.loglevel)
    ensures r.Some? ==> r.value.channel == Route(level) && |r.value.args| == 1
    ensures r.Some? ==> colour <= r.value.args[0] && EndsWith(r.value.args[0], Reset)
  {
    if Suppressed(logger.loglevel, level) then None
    else
      var formatted := Format(ts, level, Prefix(logger.hostname, logger.pid), source, message);
      var coloured := colour + formatted + Reset;
      assert coloured[|coloured| - |Reset|..] == Reset;
      if level.Warn? then Some(Write(WarnChannel, [coloured]))
      else if level.Err? then Some(Write(ErrorChannel, [coloured]))
      else Some(Write(LogChannel, [coloured]))
  }

  function Trace(logger: CliLogger, s: string, m: string, ts: string): Effect
  {
    Effect(Emit(logger, Types.Trace, s, m, "\U{1B}[90m", ts), SharedCompletion)
  }

  function Info(logger: CliLogger, s: string, m: string, ts: string): Effect
  {
    Effect(Emit(logger, Types.Info, s, m, "\U{1B}[37m", ts), SharedCompletion)
  }

  function Warn(logger: CliLogger, s: string, m: string, ts: string): Effect
  {
    Effect(Emit(logger, Types.Warn, s, m, "\U{1B}[33m", ts), SharedCompletion)
  }

  function Err(logger: CliLogger, s: string, m: string, ts: string): Effect
  {
    Effect(Emit(logger, Types.Err, s, m, "\U{1B}[31m", ts), SharedCompletion)
  }

  /** Dispatches a call to the public operation named after its level. */
  function Invoke(logger: CliLogger, call: Call): Effect
  {
    match call.level
    case Trace => Trace(logger, call.source, call.message, call.timestamp)
    case Info => Info(logger, call.source, call.message, call.timestamp)
    case Warn => Warn(logger, call.source, call.message, call.timestamp)
    case Err => Err(logger, call.source, call.message, call.timestamp)
  }

  /** Each public operation: no write when the level is below the minimum,
      otherwise exactly one write, on the level's stream, of the level's
      colour, the formatted line and the reset code. */
  lemma InvokeSpec(logger: CliLogger, call: Call)
    ensures Invoke(logger, call).write.None? <==> Below(call.level, logger.loglevel)
    ensures Invoke(logger, call).done == SharedCompletion
    ensures Invoke(logger, call).write.Some? ==>
      Invoke(logger, call).write.value ==
        Write(Route(call.level),
          [Colour(call.level)
           + Format(call.timestamp, call.level, Prefix(logger.hostname, logger.pid), call.source, call.message)
           + Reset])
  {
  }

  /** The uncoloured line carries the bracketed tag, the source, the
      message and any non-empty prefix. */
  lemma FormatContents(ts: string, level: Level, prefix: string, source: string, message: string)
    ensures var f := Format(ts, level, prefix, source, message);
      && Contains(f, "[" + Tag(level) + "]")
      && Contains(f, source)
      && Contains(f, message)
      && Contains(f, prefix)
  {
    var lvl := "[" + Tag(level) + "]";
    if prefix != "" {
      var pieces := [ts, " ", lvl, " ", prefix, ": ", source, ": ", message];
      ContainsPiece(pieces, 2);
      ContainsPiece(pieces, 4);
      ContainsPiece(pieces, 6);
      ContainsPiece(pieces, 8);
    } else {
      var pieces := [ts, " ", lvl, " ", source, ": ", message];
      ContainsPiece(pieces, 2);
      ContainsPiece(pieces, 4);
      ContainsPiece(pieces, 6);
      assert OccursAt(Concat(pieces), prefix, 0);
    }
  }

  /** The coloured line carries the level tag, the source, the message,
      the hostname, the parenthesised pid and both escape sequences. */
  lemma LineContents(logger: CliLogger, call: Call)
    requires !Below(call.level, logger.loglevel)
    ensures Invoke(logger, call).write.Some?
    ensures var line := Invoke(logger, call).write.value.args[0];
      && Contains(line, "[" + Tag(call.level) + "]")
      && Contains(line, call.source)
      && Contains(line, call.message)
      && Contains(line, logger.hostname)
      && (PidShown(logger.pid) ==> Contains(line, "(" + Decimal(logger.pid.value) + ")"))
      && Contains(line, Colour(call.level))
      && Contains(line, Reset)
  {
    InvokeSpec(logger, call);
    var c, p := Colour(call.level), Prefix(logger.hostname, logger.pid);
    var f := Format(call.timestamp, call.level, p, call.source, call.message);
    var line := Invoke(logger, call).write.value.args[0];
    assert line == c + f + Reset;
    ContainsInfix([], c, f + Reset);
    assert [] + c + (f + Reset) == line;
    ContainsInfix(c + f, Reset, []);
    assert c + f + Reset + [] == line;
    FormatContents(call.timestamp, call.level, p, call.source, call.message);
    ContainsWithin(c, f, Reset, "[" + Tag(call.level) + "]");
    ContainsWithin(c, f, Reset, call.source);
    ContainsWithin(c, f, Reset, call.message);
    ContainsWithin(c, f, Reset, p);
    PrefixContents(logger.hostname, logger.pid);
    ContainsTransitive(line, p, logger.hostname);
    if PidShown(logger.pid) {
      ContainsTransitive(line, p, "(" + Decimal(logger.pid.value) + ")");
    }
  }

  /** The prefix shows the hostname and, when the pid is shown, the pid
      in parentheses. */
  lemma PrefixContents(hostname: string, pid: Option<nat>)
    ensures Contains(Prefix(hostname, pid), hostname)
    ensures PidShown(pid) ==> Contains(Prefix(hostname, pid), "(" + Decimal(pid.value) + ")")
  {
    var p := Prefix(hostname, pid);
    assert OccursAt(p, hostname, 0);
    if PidShown(pid) {
      var d := "(" + Decimal(pid.value) + ")";
      ContainsInfix(hostname, d, []);
      assert hostname + d + [] == p;
    }
  }
}
