/** The severity model and the output boundary shared by every adapter:
    the four log levels with their order, the suppression rule both
    writing adapters apply, the three console channels a call is routed
    to, and the value an operation hands back. */
module Types {

  datatype Option<+T> = None | Some(value: T)

  /** The four log levels, declared in ascending severity. */
  datatype Level = Trace | Info | Warn | Err

  /** Position of a level in the ascending severity order. */
  function Rank(l: Level): nat
  {
    match l
    case Trace => 0
    case Info => 1
    case Warn => 2
    case Err => 3
  }

  /** Inverse of `Rank`: there is exactly one level per rank 0..3, so the
      enumeration has exactly four members. */
  function LevelOfRank(k: nat): (l: Level)
    requires k < 4
    ensures Rank(l) == k
    ensures forall m: Level :: Rank(m) == k ==> m == l
  {
    if k == 0 then Trace else if k == 1 then Info else if k == 2 then Warn else Err
  }

  /** `a` is strictly less severe than `b`. */
  predicate Below(a: Level, b: Level)
  {
    Rank(a) < Rank(b)
  }

  /** The severity order is a strict total order on the levels. */
  lemma BelowIsStrictTotalOrder()
    ensures forall a: Level :: !Below(a, a)
    ensures forall a: Level, b: Level, c: Level :: Below(a, b) && Below(b, c) ==> Below(a, c)
    ensures forall a: Level, b: Level :: a != b ==> Below(a, b) || Below(b, a)
    ensures Below(Trace, Info) && Below(Info, Warn) && Below(Warn, Err)
  {
  }

  /** The level's name as it is spelled in the configuration options. */
  function Name(l: Level): string
  {
    match l
    case Trace => "trace"
    case Info => "info"
    case Warn => "warn"
    case Err => "err"
  }

  /** Reads a level name; only the four exact spellings are levels. */
  function ParseLevel(s: string): (r: Option<Level>)
    ensures r.Some? <==> (s == "trace" || s == "info" || s == "warn" || s == "err")
    ensures r.Some? ==> Name(r.value) == s
  {
    if s == "trace" then Some(Trace)
    else if s == "info" then Some(Info)
    else if s == "warn" then Some(Warn)
    else if s == "err" then Some(Err)
    else None
  }

  lemma ParseName(l: Level)
    ensures ParseLevel(Name(l)) == Some(l)
  {
  }

  /** The upper-cased level name shown between brackets in a line. */
  function Tag(l: Level): string
  {
    match l
    case Trace => "TRACE"
    case Info => "INFO"
    case Warn => "WARN"
    case Err => "ERR"
  }

  /** ASCII upper-casing of one character. */
  function UpperChar(c: char): char
  {
    if 'a' <= c <= 'z' then (c as int - 32) as char else c
  }

  function Upper(s: string): (r: string)
    ensures |r| == |s|
    ensures forall i :: 0 <= i < |s| ==> r[i] == UpperChar(s[i])
  {
    if |s| == 0 then [] else [UpperChar(s[0])] + Upper(s[1..])
  }

  /** The fixed tag table agrees with upper-casing the level name. */
  lemma TagIsUpperName(l: Level)
    ensures Tag(l) == Upper(Name(l))
  {
  }

  /** The suppression test both writing adapters run before formatting,
      written as the same three-way disjunction; it holds exactly when the
      message level is strictly below the configured minimum. */
  function Suppressed(loglevel: Level, level: Level): (b: bool)
    ensures b <==> Below(level, loglevel)
  {
    || (loglevel == Info && level == Trace)
    || (loglevel == Warn && (level == Trace || level == Info))
    || (loglevel == Err && level != Err)
  }

  /** The three console streams. */
  datatype Channel = LogChannel | WarnChannel | ErrorChannel

  /** warn goes to the warning stream, err to the error stream, and
      everything else to the standard stream. */
  function Route(level: Level): (c: Channel)
    ensures c == WarnChannel <==> level == Warn
    ensures c == ErrorChannel <==> level == Err
    ensures c == LogChannel <==> Rank(level) <= Rank(Info)
  {
    if level == Warn then WarnChannel
    else if level == Err then ErrorChannel
    else LogChannel
  }

  /** One console call: the stream written and the arguments passed. */
  datatype Write = Write(channel: Channel, args: seq<string>)

  /** The payload-free completion an operation returns. Each adapter
      module resolves one promise up front and hands it back from every
      call, so there is one value per adapter module and no more. */
  datatype Completion = CliResolved | BrowserResolved | NullResolved

  /** What one logging operation does: at most one console write, and the
      completion it returns. */
  datatype Effect = Effect(write: Option<Write>, done: Completion)

  /** Construction options of the browser and terminal adapters. */
  datatype LoggerOptions = LoggerOptions(loglevel: Level)

  /** One call through the logger interface: the operation named after
      `level`, its source tag and message, and the clock reading the
      adapter would take at that moment. */
  datatype Call = Call(level: Level, source: string, message: string, timestamp: string)
}
