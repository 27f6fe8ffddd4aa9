/** Whole-pipeline scenarios: configurations as an application would set them up, and
    what the logger prints for them. */
module Scenarios {
  import opened Wrappers
  import opened Levels
  import opened Records
  import opened Formatting
  import opened Streams
  import opened Manager
  import opened Loggers

  /** A sink with custom text `"A:<payload>"`, no filter and threshold `warn`. */
  function SinkA(): Sink {
    Sink("A", Some(Warn), (symboler: Symboler, r: Record) => Some("A:" + r.payload), Unfiltered)
  }

  /** A sink whose threshold `none` shuts it off for every real message. */
  function SinkB(): Sink {
    Sink("B", Some(None), NoCustomText, Unfiltered)
  }

  /** Two sinks, `A` at `warn` with custom text and `B` at `none`: an `error` message is
      printed once, by `A`, as `"A:boom"`. */
  lemma {:induction false} TwoSinksScenario(env: Env, site: CallSite)
    ensures Log(Configure(InitialConfig(), [SinkA(), SinkB()]), env, IkaLogger(), Error, "boom", site)
            == [Emission(0, "A:boom")]
  {
    var cfg := Configure(InitialConfig(), [SinkA(), SinkB()]);
    var r := MakeRecord(IkaLogger(), Error, "boom", site);
    var text := Format(cfg, env, r);
    assert PrintWithFiltering(SinkB(), cfg.symboler, r, text, cfg.defaultLevel) == Nil;
    assert SinkA().makeLogText(cfg.symboler, r) == Some("A:" + "boom");
    assert "A:" + "boom" == "A:boom";
    assert FanOut(cfg.streams, 2, cfg.symboler, r, text, cfg.defaultLevel) == [];
    assert FanOut(cfg.streams, 1, cfg.symboler, r, text, cfg.defaultLevel) == [];
  }

  /** The console sink configured at `error` with manager default `info`. */
  function ConsoleAtError(): (cfg: Config)
    ensures cfg.defaultLevel == Info
    ensures |cfg.streams| == 1 && cfg.streams[0].logLevel == Some(Error)
    ensures UsesDefaultHooks(cfg.streams[0])
    ensures cfg.symboler == DefaultSymbol && cfg.textFormatter == DefaultTextFormatter
  {
    var c := ConfigureDefaultLevel(Configure(InitialConfig(), DefaultStreams()), Info);
    assert IsFirstOfType(c.streams, "SquidConsoleLogger", 0);
    ConfigureStreamLevel(c, Error, "SquidConsoleLogger").value
  }

  /** With the console sink at `error`, messages below `error` print nothing. */
  lemma {:induction false} ConsoleQuietBelowError(env: Env, site: CallSite, level: Level)
    requires Rank(level) < Rank(Error)
    ensures Log(ConsoleAtError(), env, IkaLogger(), level, "x", site) == []
  {
    var cfg := ConsoleAtError();
    var r := MakeRecord(IkaLogger(), level, "x", site);
    assert PrintWithFiltering(cfg.streams[0], cfg.symboler, r, Format(cfg, env, r), cfg.defaultLevel) == Nil;
    assert FanOut(cfg.streams, 1, cfg.symboler, r, Format(cfg, env, r), cfg.defaultLevel) == [];
  }

  /** With the console sink at `error`, a message at `error` or above prints one line
      in the default layout with the default symbols. */
  lemma {:induction false} ConsolePrintsFromError(env: Env, site: CallSite, level: Level)
    requires CanFlushAs(Error, level)
    ensures Log(ConsoleAtError(), env, IkaLogger(), level, "x", site)
            == [Emission(0, DefaultFormat(DefaultSymbol, env.now, env.lastPathComponent(site.file),
                                          MakeRecord(IkaLogger(), level, "x", site)))]
  {
    var cfg := ConsoleAtError();
    var e := MakeRecord(IkaLogger(), level, "x", site);
    assert FanOut(cfg.streams, 1, cfg.symboler, e, Format(cfg, env, e), cfg.defaultLevel) == [];
    DefaultHooksPrintDefaultText(cfg.streams[0], cfg.symboler, e, Format(cfg, env, e), cfg.defaultLevel);
  }

  /** The gates' quirk: a category at `debug` lets a `debug` message through, but a sink
      without its own threshold still compares against the manager default (`error`)
      and prints nothing. */
  lemma {:induction false} SinkUsesManagerDefaultNotCategory(env: Env, site: CallSite)
    ensures var cfg := ConfigureDefaultLevel(Configure(InitialConfig(), DefaultStreams()), Error);
            && CanFlushAs(Loggers.LogLevelOrDefault(Category("Network", Some(Debug)), cfg), Debug)
            && Log(cfg, env, Category("Network", Some(Debug)), Debug, "x", site) == []
  {
    var cfg := ConfigureDefaultLevel(Configure(InitialConfig(), DefaultStreams()), Error);
    var r := MakeRecord(Category("Network", Some(Debug)), Debug, "x", site);
    assert FanOut(cfg.streams, 1, cfg.symboler, r, Format(cfg, env, r), cfg.defaultLevel) == [];
  }

  /** The demo application's sink: custom text `"<level>:<payload>"` passed through
      `filter` (a regular-expression replacement there, any function here). */
  function DemoConsole(filter: string -> string): Sink {
    Sink("ConsoleLogger", Nil,
         (symboler: Symboler, r: Record) => Some(LevelName(r.level) + ":" + r.payload),
         (symboler: Symboler, text: string) => filter(text))
  }

  /** The demo application's setup: its sink, default `info`, the sink at `error`, its own
      symbols and a formatter that prints only the payload. */
  function DemoConfig(filter: string -> string, symboler: Symboler): (cfg: Config)
    ensures cfg.defaultLevel == Info
    ensures |cfg.streams| == 1 && cfg.streams[0].logLevel == Some(Error)
    ensures forall sym, r :: cfg.streams[0].makeLogText(sym, r) == Some(LevelName(r.level) + ":" + r.payload)
    ensures forall sym, t :: cfg.streams[0].filterLogText(sym, t) == filter(t)
  {
    var c := Configure(InitialConfig(), [DemoConsole(filter)]);
    var c := ConfigureDefaultLevel(c, Debug);
    var c := ConfigureDefaultLevel(c, Info);
    assert IsFirstOfType(c.streams, "ConsoleLogger", 0);
    var c := ConfigureStreamLevel(c, Error, "ConsoleLogger").value;
    c.(symboler := symboler, textFormatter := CustomTextFormatter((sym: Symboler, r: Record) => r.payload))
  }

  /** In the demo, messages below `error` print nothing: `debug` is stopped by the
      category, `info` and `warn` by the sink. */
  lemma {:induction false} DemoQuietBelowError(filter: string -> string, symboler: Symboler, env: Env, site: CallSite, level: Level)
    requires Rank(level) < Rank(Error)
    ensures Log(DemoConfig(filter, symboler), env, IkaLogger(), level, "hello world.", site) == []
    ensures level == Debug
            <==> !CanFlushAs(Loggers.LogLevelOrDefault(IkaLogger(), DemoConfig(filter, symboler)), level)
    ensures level != Debug ==>
              var cfg := DemoConfig(filter, symboler);
              var r := MakeRecord(IkaLogger(), level, "hello world.", site);
              PrintWithFiltering(cfg.streams[0], cfg.symboler, r, Format(cfg, env, r), cfg.defaultLevel) == Nil
  {
    var cfg := DemoConfig(filter, symboler);
    var r := MakeRecord(IkaLogger(), level, "hello world.", site);
    assert PrintWithFiltering(cfg.streams[0], cfg.symboler, r, Format(cfg, env, r), cfg.defaultLevel) == Nil;
    assert FanOut(cfg.streams, 1, cfg.symboler, r, Format(cfg, env, r), cfg.defaultLevel) == [];
  }

  /** In the demo, `error` and above print the filtered `"<level>:<payload>"` once. */
  lemma {:induction false} DemoPrintsFromError(filter: string -> string, symboler: Symboler, env: Env, site: CallSite, level: Level)
    requires CanFlushAs(Error, level)
    ensures Log(DemoConfig(filter, symboler), env, IkaLogger(), level, "hello world.", site)
            == [Emission(0, filter(LevelName(level) + ":" + "hello world."))]
  {
    var cfg := DemoConfig(filter, symboler);
    var r := MakeRecord(IkaLogger(), level, "hello world.", site);
    assert cfg.streams[0].makeLogText(cfg.symboler, r) == Some(LevelName(level) + ":" + "hello world.");
    assert FanOut(cfg.streams, 1, cfg.symboler, r, Format(cfg, env, r), cfg.defaultLevel) == [];
  }

  /** A replacement formatter that prints only `description()` of the level. */
  function DescriptionFormatter(): Formatter {
    CustomTextFormatter((symboler: Symboler, r: Record) => symboler(r.level))
  }

  /** Replacing the symbol strategy reaches every later rendering, including custom
      formatters that call `description()`: after the replacement, the default layout
      starts with the new symbol and a formatter printing `description()` prints it. */
  lemma SymbolerChangeReachesFormatters(cfg: Config, symboler: Symboler, env: Env, r: Record)
    ensures var head := symboler(r.level) + " " + LevelName(r.level) + " [" + r.category + "] ";
            var text := Format(cfg.(symboler := symboler, textFormatter := DefaultTextFormatter), env, r);
            |head| <= |text| && text[..|head|] == head
    ensures Format(cfg.(symboler := symboler, textFormatter := DescriptionFormatter()), env, r) == symboler(r.level)
  {
  }
}
