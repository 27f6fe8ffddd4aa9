# SquidLogger dispatch pipeline, in Dafny

This project models the core of SquidLogger, a small Swift logging façade. A caller
logs through a *category* (a `SquidLogger` type such as `IkaLogger`). The category
builds a `SquidLogParameter` record and passes it through two gates:

1. **Category gate.** The category's own `logLevel`, or the manager's `defaultLogLevel`
   when it has none, must be able to flush the message level (`threshold <= level`).
2. **Sink gate.** The manager renders the default text once. Then, in registry order,
   every registered *sink* (`SquidLogStreaming`) checks its own `logLevel`, or the
   manager default when it has none. A sink that passes prints either its custom text
   run through its filter, or the shared default text unfiltered.

The manager's static state (`defaultLogLevel`, `logStreams`, `logLevelSymboler`,
`textFormatter`) is the explicit value `Manager.Config`. Every configuration call is a
pure function from one `Config` to the next. A log call returns the lines it prints as a
sequence of `Emission(index, text)`, where `index` is the sink's registry position.

Modules, one file each:

- `Wrappers` (`wrappers.dfy`): `Option` (with `Nil` for Swift's `nil`, so that the
  level `none` keeps its name as `Level.None`) and `Result`.
- `Levels` (`levels.dfy`): `SquidLogLevel`, its raw values, `<` and `canFlushAs`.
- `Records` (`records.dfy`): `SquidLogParameter` with a string payload.
- `Formatting` (`formatting.dfy`): the default symbol map and the default text layout.
- `Streams` (`streams.dfy`): sinks, their defaults, `SquidConsoleLogger` and `printWithFiltering`.
- `Manager` (`manager.dfy`): configuration operations, rendering and the fan-out.
- `Loggers` (`loggers.dfy`): categories, the category gate and the six level methods.
- `Scenarios` (`scenarios.dfy`): end-to-end configurations, including the demo application's.

The environment enters as parameters. `Manager.Env` carries the clock reading the
default formatter prints and the `lastPathComponent` of the record's file path. A sink's
runtime type is the string `typeName`, which `configureLogLevel(to:at:)` compares.

`logStreams` starts out empty (`SquidLogger/SquidLogger.swift:17`), so there is no sink
until `configure` runs. `Manager.InitialConfig` therefore has an empty registry. The
default argument of `configure(streams:)` supplies the single console sink.

A level's `description()` reads the manager's current `logLevelSymboler` each time it
is called. So every custom hook takes the current symbol strategy as an argument,
alongside the record or the text: a sink's `makeLogText` and `filterLogText`, and a
replacement `textFormatter`. Replacing the strategy therefore reaches them as it does in Swift.

## Model

| member | source | states |
|---|---|---|
| Levels.FromRank | SquidLogger/SquidLogger.swift:207-213 | the raw-value initialiser succeeds exactly for 1..6 and yields the level of that rank |
| Levels.RankRoundTrip | SquidLogger/SquidLogger.swift:207-213 | raw value and initialiser are inverse: each level is recovered from its rank |
| Levels.Next | SquidLogger/SquidLogger.swift:207-213 | every level except `none` has a next level, whose rank is one higher |
| Levels.CanFlushAs | SquidLogger/SquidLogger.swift:219-228 | `canFlushAs` (Comparable's `<=` built from the custom `<`) holds iff the threshold's rank is at most the message's, i.e. iff the two are equal or the threshold is less |
| Levels.CanFlushAsIsTotalOrder | SquidLogger/SquidLogger.swift:207-228 | the gate relation is reflexive, antisymmetric, transitive and total on the six levels |
| Levels.GateBoundary | SquidLogger/SquidLogger.swift:226-228 | a gate at L passes level L, and a gate at the next level suppresses it |
| Levels.ExtremeThresholds | SquidLogger/SquidLogger.swift:207-228 | a `debug` threshold passes every message; a `none` threshold passes only `none` messages |
| Levels.ThresholdMonotone | SquidLogger/SquidLogger.swift:226-228 | whatever a higher threshold passes, a lower one passes too |
| Formatting.DefaultSymbol | SquidLogger/SquidLogger.swift:193-203 | the default symbol map is total and gives the empty string exactly for `none` |
| Formatting.DefaultSymbolInjective | SquidLogger/SquidLogger.swift:193-203 | distinct levels have distinct default symbols |
| Formatting.LevelNameInjective | SquidLogger/SquidLogger.swift:118 | the level name printed in the default text identifies the level |
| Formatting.NatToString | SquidLogger/SquidLogger.swift:118 | the printed line number is a non-empty string of decimal digits with no leading zero |
| Formatting.DecimalRoundTrip | SquidLogger/SquidLogger.swift:118 | reading back the printed line number gives the line number |
| Formatting.DefaultFormat | SquidLogger/SquidLogger.swift:113-120 | the default text starts with `<symbol> <level> [<category>] ` and ends with ` - <payload>` |
| Streams.ConsoleLogger | SquidLogger/SquidLogger.swift:164-172 | the console sink has no threshold of its own, no custom text and the identity filter |
| Streams.LogLevelOrDefault | SquidLogger/SquidLogger.swift:147-149 | a sink's effective threshold is its own level when set, else the manager default |
| Streams.MakeFilteredLogText | SquidLogger/SquidLogger.swift:152-155 | there is filtered text exactly when there is custom text, and it is the filter applied to that text |
| Streams.PrintWithFiltering | SquidLogger/SquidLogger.swift:157-161 | a sink prints iff its own threshold (else the default) passes the level; it prints filtered custom text when it has some, else the default text unfiltered |
| Streams.DefaultHooksPrintDefaultText | SquidLogger/SquidLogger.swift:150-151 | a sink with the protocol defaults prints exactly the shared default text |
| Manager.InitialConfig | SquidLogger/SquidLogger.swift:14-24 | the initial state is default `info`, an empty registry, the default symbols and the default layout |
| Manager.Configure | SquidLogger/SquidLogger.swift:27-29 | `configure` replaces the registry with the given sinks and keeps everything else |
| Manager.ConfigureDefaultIsOneConsole | SquidLogger/SquidLogger.swift:27 | with the default argument the registry is exactly one console sink without a threshold |
| Manager.ConfigureDefaultLevel | SquidLogger/SquidLogger.swift:39-41 | `configureLogLevel(to:)` sets the default threshold and changes nothing else |
| Manager.IndexOfType | SquidLogger/SquidLogger.swift:33 | the lookup returns the first position holding a sink of the type, or nothing when no sink has it |
| Manager.ConfigureStreamLevel | SquidLogger/SquidLogger.swift:32-38 | fails exactly when no sink has the type; otherwise only the first such sink gets the level, and order, other sinks and the rest of the configuration are unchanged |
| Manager.ConfigureStreamLevelIdempotent | SquidLogger/SquidLogger.swift:32-38 | setting a sink's level twice equals setting it once |
| Manager.ConfiguredStreamGatesAtLevel | SquidLogger/SquidLogger.swift:37 | after the update the targeted sink gates against the new level whatever the default is |
| Manager.Format | SquidLogger/SquidLogger.swift:44 | the default text is the replacement formatter's output (given the current symbols) when one is set, else the default layout with the configured symbols |
| Manager.FanOut | SquidLogger/SquidLogger.swift:45-47 | lines follow registry order, each sink prints at most once, each line is what that sink's `printWithFiltering` gives, and every sink whose gate passes prints |
| Manager.FanOutPrepend | SquidLogger/SquidLogger.swift:45-46 | a sink that prints puts its line in front of the later sinks' lines and keeps all the fan-out properties |
| Manager.FanOutSkip | SquidLogger/SquidLogger.swift:45-46 | a sink whose gate fails adds no line, and the later sinks' lines keep the fan-out properties |
| Manager.Print | SquidLogger/SquidLogger.swift:43-48 | the manager prints at most one line per registered sink, in registry order |
| Manager.PrintEmitsIff | SquidLogger/SquidLogger.swift:45-47 | sink i prints iff its own threshold, or the manager default when it has none, passes the level |
| Manager.PrintTextChoice | SquidLogger/SquidLogger.swift:157-160 | each printed line is the sink's filtered custom text, or the default text unfiltered when it has none |
| Manager.PrintSharesDefaultText | SquidLogger/SquidLogger.swift:44-46 | every sink without custom text prints the identical default string |
| Manager.PrintToDefaultConsole | SquidLogger/SquidLogger.swift:27-29 | with the default registry, the console prints the default text exactly when the default threshold passes |
| Manager.DefaultLevelSparesOverriddenSinks | SquidLogger/SquidLogger.swift:147-149 | changing the default leaves the decision of every sink that has its own threshold unchanged |
| Loggers.IkaLogger | SquidLogger/SquidLogger.swift:123-126 | the library's own category is "Default" without a threshold |
| Loggers.LogLevelOrDefault | SquidLogger/SquidLogger.swift:97-99 | a category's threshold is its own level when set, else the manager default |
| Loggers.Print | SquidLogger/SquidLogger.swift:101-104 | a message the category threshold rejects prints nothing; otherwise the manager's fan-out decides |
| Loggers.MakeRecord | SquidLogger/SquidLogger.swift:66-69 | the record carries the level, the category's name, the payload and the call site |
| Loggers.Log | SquidLogger/SquidLogger.swift:66-95 | a level method prints at most one line per sink, in registry order |
| Loggers.LogEmitsIff | SquidLogger/SquidLogger.swift:97-104 | sink i prints a message iff the category threshold passes it and the sink's own threshold (else the manager default) passes it |
| Loggers.CategoryThresholdPrecedence | SquidLogger/SquidLogger.swift:97-99 | a category with its own level ignores changes of the default; one without follows the new default |
| Loggers.SinkGateIgnoresCategoryThreshold | SquidLogger/SquidLogger.swift:101-104 | once the category gate passes, the lines printed do not depend on which category let the record through |
| Loggers.RejectedMessageTouchesNoSink | SquidLogger/SquidLogger.swift:101-103 | a message the category gate rejects reaches no sink |
| Scenarios.TwoSinksScenario | SquidLogger/SquidLogger.swift:43-48 | sinks A (warn, custom `A:<payload>`) and B (none): `error("boom")` prints exactly `A:boom`, from A |
| Scenarios.ConsoleAtError | SquidLogger/SquidLogger.swift:32-38 | configuring the console sink at `error` under default `info` succeeds and sets exactly that |
| Scenarios.ConsoleQuietBelowError | SquidLogger/SquidLogger.swift:157-158 | with the console at `error` under default `info`, `debug`, `info` and `warn` messages print nothing |
| Scenarios.ConsolePrintsFromError | SquidLogger/SquidLogger.swift:157-161 | with the console at `error`, an `error` or `fatal` message prints exactly one line, the default layout with the default symbols |
| Scenarios.SinkUsesManagerDefaultNotCategory | SquidLogger/SquidLogger.swift:147-149 | a `debug` category passes a `debug` message, yet a sink without its own threshold drops it against a default of `error` |
| Scenarios.DemoConfig | Demo/Demo/AppDelegate.swift:16-23 | the demo setup leaves default `info` and one sink at `error` whose custom text is `<level>:<payload>` and whose filter is the given one |
| Scenarios.DemoQuietBelowError | Demo/Demo/AppDelegate.swift:25-27 | in the demo nothing below `error` prints: the category stops exactly `debug`, and the sink's own gate stops `info` and `warn` |
| Scenarios.SymbolerChangeReachesFormatters | SquidLogger/SquidLogger.swift:215-217 | after the symbol strategy is replaced, the default layout starts with the new symbol, and a formatter printing `description()` prints the new symbol |
| Scenarios.DemoPrintsFromError | Demo/Demo/AppDelegate.swift:28-29 | in the demo, `error` and `fatal` print once, the filter applied to `<level>:hello world.`, never the default text |

## Left out

- `Swift.print` in the sinks is not modelled as I/O. A printed line is the `Emission(index, text)` recorded in the result.
- The clock reading and the date formatting (`DateFormatter`, `Foundation.Date()`) are inputs. `Env.now` stands for the already formatted timestamp.
- `SquidLogParameter.fileName` depends on Foundation's URL parsing. Its `lastPathComponent` is the input `Env.lastPathComponent`.
- The payload is generic in the source. Here it is a string: the text that `"\(params.object)"` would produce.
- Replacing `logLevelSymboler` or `textFormatter` is a plain assignment to a static variable. It is a datatype update of `Config` (`cfg.(symboler := s)`), as `Scenarios.DemoConfig` does, and has no function of its own. Hooks see the new strategy because they receive it as an argument (`Scenarios.SymbolerChangeReachesFormatters`).
- Hooks receive only the symbol strategy, not the rest of the manager state. A hook that reads `defaultLogLevel`, `logStreams` or `textFormatter` directly is not modelled.
- Sinks are values, like the structs `SquidConsoleLogger` and the demo's `ConsoleLogger`. A class instance registered at two registry positions shares its `logLevel` between them, so `configureLogLevel(to:at:)` would change both positions. Shared class instances are not modelled: `Manager.ConfigureStreamLevel` changes only the first matching position.
- The demo's direct assignment `defaultLogLevel = .debug` is written as `ConfigureDefaultLevel`, which does the same.
- Manager.ConfigureStreamLevel: the missing-sink case is modelled as the `assertionFailure` of a debug build (a `Failure`). In a release build, `assertionFailure` does nothing and the call returns with the configuration unchanged; the model does not state that outcome separately.
- The demo application's `NSRegularExpression` filter is a foreign library. `Scenarios.DemoConfig` takes the filter as an arbitrary function.
- The mutable static globals, and the thread-safety they lack, are not modelled. Configuration is threaded through as a value.
