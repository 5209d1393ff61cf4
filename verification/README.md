# Leveled logging facade — Dafny model

This project models a small leveled-logging facade. It has four severity
levels (trace < info < warn < err) and three interchangeable adapters
behind one interface:

- the **terminal adapter** (`CliLogger`) prints a timestamped line with an
  optional `hostname(pid)` prefix, wrapped in a per-level ANSI colour and a
  reset code;
- the **browser adapter** (`BrowserLogger`) prints a timestamped line behind
  a `%c` style placeholder, followed by a per-level CSS string;
- the **null adapter** (`NullLogger`) discards everything and reports `err`
  as its minimum level.

A call on a writing adapter is suppressed when its level is strictly below
the configured minimum. Otherwise it makes exactly one console call: on the
warning stream for `warn`, on the error stream for `err`, and on the
standard stream for `trace` and `info`.

The model is purely functional. A console call is a `Write(channel, args)`
record. An operation returns an `Effect`: an `Option<Write>` together with
a `Completion`. Each adapter module resolves one promise up front and
returns it from every call, so there is one completion value per adapter
module. Several things that come from the
runtime are passed in as parameters instead:

- the clock reading (`Call.timestamp`);
- the hostname (`""` when unavailable);
- the process id (`Option<nat>`).

Modules:

- `Types` (`types.dfy`): levels, rank, order, names and tags, the shared
  suppression rule, channels and routing, the effect of an operation.
- `Strings` (`strings.dfy`): substring containment, template-literal
  concatenation, and the decimal rendering of the process id.
- `Cli` (`cli_logger.dfy`), `Browser` (`browser_logger.dfy`) and
  `Null` (`null_logger.dfy`): the three adapters. The template literals of
  the two writing adapters are `Cli.Format` (core/cli-logger.ts:40-42) and
  `Browser.Format` (core/browser-logger.ts:30). Their private `write` methods
  are `Cli.Emit` and `Browser.Emit`.
- `Port` (`port.dfy`): the three adapters behind one type, runs of several
  calls, and the per-stream call counts that the adapters' tests assert.

Two details of the terminal line follow the code exactly:

- When the terminal prefix is empty, the line is `ts [LVL] source: message`.
  The colon that would follow the prefix is dropped along with it.
- Hostname and pid are tested for truthiness. An empty hostname counts as
  unavailable, and so does a pid of `0`.

## Model

| member | source | states |
|---|---|---|
| Types.LevelOfRank | core/types.ts:1-5 | each rank 0..3 belongs to exactly one level, so there are exactly four levels |
| Types.BelowIsStrictTotalOrder | core/types.ts:1-5 | "strictly less severe" is irreflexive, transitive and total, with trace < info < warn < err |
| Types.ParseLevel | core/types.ts:5 | a string is a level name exactly when it is one of "trace", "info", "warn" or "err", and the level parsed has that name |
| Types.TagIsUpperName | core/cli-logger.ts:33 | the bracketed tag of each level is its name upper-cased |
| Types.Suppressed | core/cli-logger.ts:25-30 | the hand-written three-way disjunction (repeated in core/browser-logger.ts:22-27) holds exactly when the message level is strictly below the configured minimum |
| Types.Route | core/cli-logger.ts:46-48 | the stream is the warning stream iff the level is warn, the error stream iff it is err, and the standard stream iff it is trace or info |
| Strings.Decimal | core/cli-logger.ts:36 | the rendered pid is a non-empty string of decimal digits with no leading zero |
| Strings.DecimalRoundTrip | core/cli-logger.ts:36 | reading the rendered pid back as decimal gives the pid, so distinct pids render differently |
| Cli.Prefix | core/cli-logger.ts:35-38 | the prefix is empty iff hostname and pid are both unavailable; it starts with the hostname; it is hostname + "(pid)" when the pid is shown and the hostname alone otherwise |
| Cli.Emit | core/cli-logger.ts:19-49 | nothing is written iff the level is below the minimum; otherwise one call on the level's stream with one argument that starts with the colour and ends with the reset code |
| Cli.InvokeSpec | core/cli-logger.ts:51-66 | each public operation writes, when not suppressed, exactly the level's reference colour (gray/white/yellow/red) + formatted line + reset on the level's stream, and returns this module's one shared completion |
| Cli.LineContents | core/cli-logger.test.ts:27-40 | an emitted line contains "[LEVEL]", the source, the message, the hostname, "(pid)" when shown, the colour code and the reset code |
| Cli.FormatContents | core/cli-logger.ts:40-42 | the uncoloured terminal line contains the bracketed tag, the source, the message and the prefix, with or without a prefix |
| Cli.PrefixContents | core/cli-logger.ts:36-38 | the prefix contains the hostname, and "(pid)" when the pid is shown |
| Browser.Emit | core/browser-logger.ts:16-35 | nothing is written iff the level is below the minimum; otherwise one call on the level's stream with two arguments: a string starting with "%c" and the CSS passed in |
| Browser.InvokeSpec | core/browser-logger.ts:37-52 | each public operation writes, when not suppressed, exactly ["%c" + formatted line, the level's reference CSS] on the level's stream, and returns this module's one shared completion |
| Browser.WarnErrShareStyle | core/browser-logger.ts:45-51 | warn and err are the only two levels that share a style; they still differ in tag and stream |
| Browser.LineContents | core/browser-logger.test.ts:25-56 | the first argument of an emitted call contains "[LEVEL]", the source and the message |
| Null.Loglevel | core/null-logger.ts:16-18 | the fixed minimum level admits err messages and no others |
| Null.Interchangeable | core/null-logger.ts:20-34 | any two calls of any level and arguments have the same effect: no write and the null module's one shared completion |
| Port.InvokeSpec | core/types.ts:14-36 | for every adapter: a write happens iff the adapter writes at all and the level is not below its minimum; it goes to the level's stream; the operation returns the completion shared by its adapter's module |
| Port.CompletionSharing | core/cli-logger.ts:8 | all calls on one adapter return the same completion; adapters of different kinds return different ones, because each module (also core/browser-logger.ts:7 and core/null-logger.ts:6) resolves its own promise |
| Port.RecordedLength | core/cli-logger.ts:25-48 | one operation records one console call exactly when the adapter writes at all and the level is not below its minimum, and none otherwise |
| Port.Run | core/types.ts:14-36 | a sequence of calls makes at most one console call per call |
| Port.RunCounts | core/cli-logger.test.ts:66-98 | for a writing adapter, the number of console calls on each stream equals the number of calls at or above the minimum that are routed to that stream |
| Port.RunLength | core/cli-logger.ts:25-48 | for a writing adapter, the total number of console calls equals the number of calls at or above the minimum: exactly one write per emitted call |
| Port.NullRunSilent | core/null-logger.test.ts:38-47 | the null adapter makes no console call for any sequence of calls, and its minimum stays err |
| Port.CliFormatExtendsBrowser | core/cli-logger.ts:40-42 | the terminal line is the browser line with "prefix: " inserted before the source; with an empty prefix the two lines are identical |
| Port.WarnMinimumExample | core/browser-logger.test.ts:68-77 | extends that test, where trace and info are suppressed at minimum warn, with a final err call: the three calls give exactly one console call, on the error stream, containing the err message |
| Port.ErrMinimumExample | core/cli-logger.test.ts:87-98 | at minimum err, warn/info/trace/err gives one error-stream call and none on the other streams |

## Left out

- The clock (`new Date().toISOString()`) is not modelled. Each call carries its timestamp as an opaque string.
- `os.hostname()` and `process.pid` are not modelled. They are construction parameters: the hostname is a string where `""` means unavailable, and the pid is an `Option<nat>`.
- Console output is not performed. It is returned as `Write` records, so how a browser renders `%c` and how a terminal renders ANSI codes is not modelled.
- Promises are not modelled. Each module's resolved promise is one `Completion` value (`CliResolved`, `BrowserResolved` or `NullResolved`), so "the same object" becomes "the same value". Awaiting is not modelled.
- `loglevel` being read-only is not stated by any contract. It holds by construction: adapters are immutable values and no operation returns an adapter.
- `String.prototype.toUpperCase` is not modelled in general. Levels use a fixed tag table, and `Types.TagIsUpperName` checks it against ASCII upper-casing.
- Strings.Decimal: plain decimal digits, as the template literal renders integers below 10^21. Exponent notation for larger numbers is not modelled, since process ids never get that large.
- The constructors (`NewCliLogger`, `NewBrowserLogger`, `NewNullLogger`) have no contracts. They only copy the configured level, or fix it to err for the null adapter.
- The test harness (mocked console objects, `bun:test`) is not modelled. Its call log is modelled by `Port.Recorded` and `Port.Run`, which list the writes. Its call counters are modelled by `Port.CountOn` over those writes. `Port.Recorded` only turns an optional write into a list; its contract describes that list and nothing about the source.
