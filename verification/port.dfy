/** The logger interface seen by callers: any of the three adapters behind
    one type, its read-only minimum level, one operation per level, and the
    console writes a sequence of calls produces. */
module Port {
  import opened Types
  import opened Strings
  import Cli
  import Browser
  import Null

  datatype Adapter =
    | CliAdapter(cli: Cli.CliLogger)
    | BrowserAdapter(browser: Browser.BrowserLogger)
    | NullAdapter(silent: Null.NullLogger)

  /** The configured minimum level. No operation returns a new adapter, so
      it is the value fixed at construction for the adapter's lifetime. */
  function Loglevel(a: Adapter): Level
  {
    match a
    case CliAdapter(l) => l.loglevel
    case BrowserAdapter(l) => l.loglevel
    case NullAdapter(l) => Null.Loglevel(l)
  }

  /** The adapters that write to the console at all. */
  predicate Writes(a: Adapter)
  {
    !a.NullAdapter?
  }

  /** One call through the interface. */
  function Invoke(a: Adapter, call: Call): Effect
  {
    match a
    case CliAdapter(l) => Cli.Invoke(l, call)
    case BrowserAdapter(l) => Browser.Invoke(l, call)
    case NullAdapter(l) => Null.Invoke(l, call)
  }

  /** The promise an adapter's module hands back from every call. */
  function SharedCompletion(a: Adapter): Completion
  {
    match a
    case CliAdapter(_) => Cli.SharedCompletion
    case BrowserAdapter(_) => Browser.SharedCompletion
    case NullAdapter(_) => Null.SharedCompletion
  }

  /** Every operation of every adapter: a write happens exactly when the
      adapter writes at all and the level is not below the minimum; it goes
      to the level's stream; the completion is the one its module shares. */
  lemma InvokeSpec(a: Adapter, call: Call)
    ensures Invoke(a, call).write.Some? <==> Writes(a) && !Below(call.level, Loglevel(a))
    ensures Invoke(a, call).write.Some? ==> Invoke(a, call).write.value.channel == Route(call.level)
    ensures Invoke(a, call).done == SharedCompletion(a)
  {
  }

  /** The console calls recorded for an optional write. */
  function Recorded(w: Option<Write>): (ws: seq<Write>)
    ensures |ws| == (if w.Some? then 1 else 0)
    ensures forall x :: x in ws <==> w == Some(x)
  {
    if w.Some? then [w.value] else []
  }

  /** Completions are shared among the calls of one adapter module, and
      adapters of different kinds return different ones. */
  lemma CompletionSharing(a: Adapter, b: Adapter, c1: Call, c2: Call)
    ensures Invoke(a, c1).done == Invoke(a, c2).done
    ensures Invoke(a, c1).done == Invoke(b, c2).done <==>
      (a.CliAdapter? && b.CliAdapter?) || (a.BrowserAdapter? && b.BrowserAdapter?) || (a.NullAdapter? && b.NullAdapter?)
  {
  }

  /** One operation records one console call exactly when the adapter
      writes at all and the level is not below its minimum, and none
      otherwise. */
  lemma RecordedLength(a: Adapter, call: Call)
    ensures |Recorded(Invoke(a, call).write)| == (if Writes(a) && !Below(call.level, Loglevel(a)) then 1 else 0)
  {
  }

  /** The console calls made by a sequence of calls, in order. */
  function Run(a: Adapter, calls: seq<Call>): (ws: seq<Write>)
    ensures |ws| <= |calls|
    decreases |calls|
  {
    if |calls| == 0 then []
    else Run(a, calls[..|calls| - 1]) + Recorded(Invoke(a, calls[|calls| - 1]).write)
  }

  /** How many console calls went to `ch`. */
  function CountOn(ws: seq<Write>, ch: Channel): nat
    decreases |ws|
  {
    if |ws| == 0 then 0
    else CountOn(ws[..|ws| - 1], ch) + (if ws[|ws| - 1].channel == ch then 1 else 0)
  }

  /** How many calls are at or above `min` and routed to `ch`. */
  function CountRouted(calls: seq<Call>, min: Level, ch: Channel): nat
    decreases |calls|
  {
    if |calls| == 0 then 0
    else
      var c := calls[|calls| - 1];
      CountRouted(calls[..|calls| - 1], min, ch) + (if !Below(c.level, min) && Route(c.level) == ch then 1 else 0)
  }

  /** How many calls are at or above `min`. */
  function CountEmitted(calls: seq<Call>, min: Level): nat
    decreases |calls|
  {
    if |calls| == 0 then 0
    else CountEmitted(calls[..|calls| - 1], min) + (if !Below(calls[|calls| - 1].level, min) then 1 else 0)
  }

  lemma {:induction false} CountOnAppend(xs: seq<Write>, ys: seq<Write>, ch: Channel)
    ensures CountOn(xs + ys, ch) == CountOn(xs, ch) + CountOn(ys, ch)
    decreases |ys|
  {
    if |ys| > 0 {
      assert (xs + ys)[..|xs + ys| - 1] == xs + ys[..|ys| - 1];
      CountOnAppend(xs, ys[..|ys| - 1], ch);
    } else {
      assert xs + ys == xs;
    }
  }

  /** One call of a writing adapter records one console call on `ch`
      exactly when it is at or above the minimum and routed to `ch`. */
  lemma RecordedCount(a: Adapter, call: Call, ch: Channel)
    requires Writes(a)
    ensures CountOn(Recorded(Invoke(a, call).write), ch)
         == (if !Below(call.level, Loglevel(a)) && Route(call.level) == ch then 1 else 0)
  {
  }

  /** Per stream, a writing adapter makes exactly one console call for each
      call at or above its minimum routed to that stream. */
  lemma {:induction false} RunCounts(a: Adapter, calls: seq<Call>, ch: Channel)
    requires Writes(a)
    ensures CountOn(Run(a, calls), ch) == CountRouted(calls, Loglevel(a), ch)
    decreases |calls|
  {
    if |calls| > 0 {
      var init, last := calls[..|calls| - 1], calls[|calls| - 1];
      var rec := Recorded(Invoke(a, last).write);
      assert Run(a, calls) == Run(a, init) + rec;
      RunCounts(a, init, ch);
      CountOnAppend(Run(a, init), rec, ch);
      RecordedCount(a, last, ch);
    }
  }

  /** In all, a writing adapter makes exactly one console call per call at
      or above its minimum. */
  lemma {:induction false} RunLength(a: Adapter, calls: seq<Call>)
    requires Writes(a)
    ensures |Run(a, calls)| == CountEmitted(calls, Loglevel(a))
    decreases |calls|
  {
    if |calls| > 0 {
      var init, last := calls[..|calls| - 1], calls[|calls| - 1];
      assert Run(a, calls) == Run(a, init) + Recorded(Invoke(a, last).write);
      RunLength(a, init);
      InvokeSpec(a, last);
    }
  }

  /** The null adapter makes no console call, whatever it is asked. */
  lemma {:induction false} NullRunSilent(a: Adapter, calls: seq<Call>)
    requires a.NullAdapter?
    ensures Run(a, calls) == []
    ensures Loglevel(a) == Err
    decreases |calls|
  {
    if |calls| > 0 {
      NullRunSilent(a, calls[..|calls| - 1]);
      Null.Interchangeable(a.silent, calls[|calls| - 1], calls[|calls| - 1]);
    }
  }

  /** The terminal line is the browser line with the prefix in front of
      the source; with no prefix the two lines coincide. */
  lemma CliFormatExtendsBrowser(ts: string, level: Level, prefix: string, source: string, message: string)
    ensures prefix == "" ==> Cli.Format(ts, level, prefix, source, message) == Browser.Format(ts, level, source, message)
    ensures prefix != "" ==>
      Cli.Format(ts, level, prefix, source, message) == Browser.Format(ts, level, prefix, source + ": " + message)
  {
    if prefix != "" {
      var lvl := "[" + Tag(level) + "]";
      var head := [ts, " ", lvl, " ", prefix, ": "];
      ConcatAppend(head, [source, ": ", message]);
      ConcatAppend(head, [source + ": " + message]);
      assert head + [source, ": ", message] == [ts, " ", lvl, " ", prefix, ": ", source, ": ", message];
      assert head + [source + ": " + message] == [ts, " ", lvl, " ", prefix, ": ", source + ": " + message];
      var tail := [source, ": ", message];
      assert tail[1..][1..] == [message];
      assert Concat([message]) == message;
      assert Concat(tail[1..]) == ": " + message;
      assert Concat(tail) == source + ": " + message;
      assert [source + ": " + message][1..] == [];
    }
  }

  /** A logger at minimum `warn` asked for `trace`, `info` and then `err`
      makes one console call, on the error stream, carrying the err message. */
  lemma WarnMinimumExample(a: Adapter, t1: string, t2: string, t3: string)
    requires Writes(a) && Loglevel(a) == Warn
    ensures var ws := Run(a, [Call(Trace, "x", "hidden", t1), Call(Info, "x", "hidden", t2), Call(Err, "x", "shown", t3)]);
      && |ws| == 1
      && ws[0].channel == ErrorChannel
      && Contains(ws[0].args[0], "shown")
  {
    var c1, c2, c3 := Call(Trace, "x", "hidden", t1), Call(Info, "x", "hidden", t2), Call(Err, "x", "shown", t3);
    var calls := [c1, c2, c3];
    InvokeSpec(a, c1);
    InvokeSpec(a, c2);
    InvokeSpec(a, c3);
    assert calls[..2][..1] == [c1];
    assert calls[..2] == [c1, c2];
    assert Run(a, calls[..2]) == [];
    var ws := Run(a, calls);
    assert ws == Recorded(Invoke(a, c3).write);
    match a
    case CliAdapter(l) => Cli.LineContents(l, c3);
    case BrowserAdapter(l) => Browser.LineContents(l, c3);
  }

  /** A logger at minimum `err` asked for `warn`, `info`, `trace` and then
      `err` makes one error-stream call and none on the other two streams. */
  lemma ErrMinimumExample(a: Adapter, ts: string)
    requires Writes(a) && Loglevel(a) == Err
    ensures var ws := Run(a, [Call(Warn, "fail.ts", "ignored", ts), Call(Info, "fail.ts", "ignored", ts),
                              Call(Trace, "fail.ts", "ignored", ts), Call(Err, "fail.ts", "only this is logged", ts)]);
      && CountOn(ws, ErrorChannel) == 1
      && CountOn(ws, LogChannel) == 0
      && CountOn(ws, WarnChannel) == 0
  {
    var calls := [Call(Warn, "fail.ts", "ignored", ts), Call(Info, "fail.ts", "ignored", ts),
                  Call(Trace, "fail.ts", "ignored", ts), Call(Err, "fail.ts", "only this is logged", ts)];
    RunCounts(a, calls, ErrorChannel);
    RunCounts(a, calls, LogChannel);
    RunCounts(a, calls, WarnChannel);
    assert calls[..3][..2] == calls[..2];
    assert calls[..2][..1] == calls[..1];
    assert forall ch :: CountRouted(calls[..1], Err, ch) == 0;
    assert forall ch :: CountRouted(calls[..2], Err, ch) == 0;
    assert forall ch :: CountRouted(calls[..3], Err, ch) == 0;
  }
}
