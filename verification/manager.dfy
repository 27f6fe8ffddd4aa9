/** `SquidLoggerManager`: the process-wide configuration, made an explicit value,
    and the fan-out of one accepted message to every registered sink. */
module Manager {
  import opened Wrappers
  import opened Levels
  import opened Records
  import opened Formatting
  import opened Streams

  /** The manager's `textFormatter`: the default layout, or a replacement strategy. */
  datatype Formatter = DefaultTextFormatter | CustomTextFormatter(format: (Symboler, Record) -> string)

  /** What the default formatter reads from the platform: the current time, already
      rendered as `yyyy-MM-dd HH:mm:ss.SSS`, and the last path component of a file path. */
  datatype Env = Env(now: string, lastPathComponent: string -> string)

  /** The static state: `defaultLogLevel`, `logStreams`, `logLevelSymboler`, `textFormatter`. */
  datatype Config = Config(
    defaultLevel: Level,
    streams: seq<Sink>,
    symboler: Symboler,
    textFormatter: Formatter)

  /** One line handed to the sink at position `index` of the registry. */
  datatype Emission = Emission(index: nat, text: string)

  /** The failure `configureLogLevel(to:at:)` reports by `assertionFailure`. */
  datatype ConfigError = StreamNotFound(typeName: string)

  /** The static initialisers: default level `info`, no sink until `configure` runs,
      the default symbols and the default layout. */
  function InitialConfig(): (cfg: Config)
    ensures cfg.defaultLevel == Info
    ensures cfg.streams == []
    ensures cfg.symboler == DefaultSymbol
    ensures cfg.textFormatter == DefaultTextFormatter
  {
    Config(Info, [], DefaultSymbol, DefaultTextFormatter)
  }

  /** The default argument of `configure(streams:)`. */
  function DefaultStreams(): seq<Sink> {
    [ConsoleLogger()]
  }

  /** `configure(streams:)`: replaces the whole registry and nothing else. */
  function Configure(cfg: Config, streams: seq<Sink>): (cfg': Config)
    ensures cfg'.streams == streams
    ensures cfg'.defaultLevel == cfg.defaultLevel
    ensures cfg'.symboler == cfg.symboler && cfg'.textFormatter == cfg.textFormatter
  {
    cfg.(streams := streams)
  }

  /** With the default argument the registry is one console sink without a threshold. */
  lemma ConfigureDefaultIsOneConsole(cfg: Config)
    ensures |Configure(cfg, DefaultStreams()).streams| == 1
    ensures Configure(cfg, DefaultStreams()).streams[0].logLevel == Nil
    ensures Configure(cfg, DefaultStreams()).streams[0].typeName == "SquidConsoleLogger"
    ensures UsesDefaultHooks(Configure(cfg, DefaultStreams()).streams[0])
  {
  }

  /** `configureLogLevel(to:)`: sets the default threshold and nothing else. */
  function ConfigureDefaultLevel(cfg: Config, level: Level): (cfg': Config)
    ensures cfg'.defaultLevel == level
    ensures cfg'.streams == cfg.streams
    ensures cfg'.symboler == cfg.symboler && cfg'.textFormatter == cfg.textFormatter
  {
    cfg.(defaultLevel := level)
  }

  /** `k` is the first registry position whose sink has runtime type `typeName`. */
  ghost predicate IsFirstOfType(streams: seq<Sink>, typeName: string, k: int) {
    && 0 <= k < |streams|
    && streams[k].typeName == typeName
    && forall j :: 0 <= j < k ==> streams[j].typeName != typeName
  }

  /** The registry lookup by runtime type: the first position at or after `from` whose
      sink has the target type. */
  function IndexOfType(streams: seq<Sink>, typeName: string, from: nat): (k: Option<nat>)
    requires from <= |streams|
    ensures k.Some? ==> from <= k.value < |streams| && streams[k.value].typeName == typeName
    ensures k.Some? ==> forall j :: from <= j < k.value ==> streams[j].typeName != typeName
    ensures k.Nil? ==> forall j :: from <= j < |streams| ==> streams[j].typeName != typeName
    decreases |streams| - from
  {
    if from == |streams| then Nil
    else if streams[from].typeName == typeName then Some(from)
    else IndexOfType(streams, typeName, from + 1)
  }

  /** `configureLogLevel(to:at:)`: gives the first sink of the named type the threshold
      `level`; every other sink, the order and the rest of the configuration are kept.
      When no sink has that type the call fails. */
  function ConfigureStreamLevel(cfg: Config, level: Level, typeName: string): (r: Result<Config, ConfigError>)
    ensures r.Failure? <==> forall j :: 0 <= j < |cfg.streams| ==> cfg.streams[j].typeName != typeName
    ensures r.Failure? ==> r.error == StreamNotFound(typeName)
    ensures r.Success? ==> r.value == cfg.(streams := r.value.streams)
    ensures r.Success? ==> |r.value.streams| == |cfg.streams|
    ensures r.Success? ==> forall k :: IsFirstOfType(cfg.streams, typeName, k) ==>
              && r.value.streams[k] == cfg.streams[k].(logLevel := Some(level))
              && forall j :: 0 <= j < |cfg.streams| && j != k ==> r.value.streams[j] == cfg.streams[j]
    ensures r.Success? ==> exists k :: IsFirstOfType(cfg.streams, typeName, k)
  {
    match IndexOfType(cfg.streams, typeName, 0)
    case Nil => Failure(StreamNotFound(typeName))
    case Some(k) =>
      assert IsFirstOfType(cfg.streams, typeName, k);
      Success(cfg.(streams := cfg.streams[k := cfg.streams[k].(logLevel := Some(level))]))
  }

  /** Setting the same sink's threshold twice is the same as setting it once. */
  lemma ConfigureStreamLevelIdempotent(cfg: Config, level: Level, typeName: string)
    requires ConfigureStreamLevel(cfg, level, typeName).Success?
    ensures ConfigureStreamLevel(ConfigureStreamLevel(cfg, level, typeName).value, level, typeName)
            == ConfigureStreamLevel(cfg, level, typeName)
  {
    var c1 := ConfigureStreamLevel(cfg, level, typeName).value;
    var k :| IsFirstOfType(cfg.streams, typeName, k);
    assert IsFirstOfType(c1.streams, typeName, k);
    var c2 := ConfigureStreamLevel(c1, level, typeName).value;
    assert c2.streams == c1.streams;
  }

  /** The rendered default text: the configured formatter applied to the record. */
  function Format(cfg: Config, env: Env, r: Record): (text: string)
    ensures cfg.textFormatter.CustomTextFormatter? ==> text == cfg.textFormatter.format(cfg.symboler, r)
    ensures cfg.textFormatter.DefaultTextFormatter? ==>
              text == DefaultFormat(cfg.symboler, env.now, env.lastPathComponent(r.file), r)
  {
    match cfg.textFormatter
    case DefaultTextFormatter => DefaultFormat(cfg.symboler, env.now, env.lastPathComponent(r.file), r)
    case CustomTextFormatter(f) => f(cfg.symboler, r)
  }

  /** Some line of `out` went to the sink at registry position `i`. */
  ghost predicate EmittedBy(out: seq<Emission>, i: nat) {
    exists k :: 0 <= k < |out| && out[k].index == i
  }

  /** `out` is what offering `r` to `streams[from..]` in order prints: at most one line
      per sink, in registry order, each line what that sink's `printWithFiltering` gives,
      and a line from every sink whose gate passes. */
  ghost predicate IsFanOut(streams: seq<Sink>, from: nat, symboler: Symboler, r: Record, defaultLogText: string, defaultLevel: Level, out: seq<Emission>)
    requires from <= |streams|
  {
    && |out| <= |streams| - from
    && (forall k :: 0 <= k < |out| ==> from <= out[k].index < |streams|)
    && (forall k :: 0 <= k < |out| ==>
          PrintWithFiltering(streams[out[k].index], symboler, r, defaultLogText, defaultLevel) == Some(out[k].text))
    && (forall k, k' :: 0 <= k < k' < |out| ==> out[k].index < out[k'].index)
    && (forall i :: from <= i < |streams| && PrintWithFiltering(streams[i], symboler, r, defaultLogText, defaultLevel).Some? ==>
          EmittedBy(out, i))
  }

  /** A sink that stays silent adds nothing to the lines of the sinks after it. */
  lemma FanOutSkip(streams: seq<Sink>, from: nat, symboler: Symboler, r: Record, defaultLogText: string, defaultLevel: Level, rest: seq<Emission>)
    requires from < |streams|
    requires PrintWithFiltering(streams[from], symboler, r, defaultLogText, defaultLevel).Nil?
    requires IsFanOut(streams, from + 1, symboler, r, defaultLogText, defaultLevel, rest)
    ensures IsFanOut(streams, from, symboler, r, defaultLogText, defaultLevel, rest)
  {
  }

  /** A sink that prints puts its line in front of the lines of the sinks after it. */
  lemma FanOutPrepend(streams: seq<Sink>, from: nat, symboler: Symboler, r: Record, defaultLogText: string, defaultLevel: Level, text: string, rest: seq<Emission>)
    requires from < |streams|
    requires PrintWithFiltering(streams[from], symboler, r, defaultLogText, defaultLevel) == Some(text)
    requires IsFanOut(streams, from + 1, symboler, r, defaultLogText, defaultLevel, rest)
    ensures IsFanOut(streams, from, symboler, r, defaultLogText, defaultLevel, [Emission(from, text)] + rest)
  {
    var out := [Emission(from, text)] + rest;
    assert forall k :: 0 < k < |out| ==> out[k] == rest[k - 1];
    forall i | from <= i < |streams| && PrintWithFiltering(streams[i], symboler, r, defaultLogText, defaultLevel).Some?
      ensures EmittedBy(out, i)
    {
      if i == from {
        assert out[0].index == i;
      } else {
        var k :| 0 <= k < |rest| && rest[k].index == i;
        assert out[k + 1].index == i;
      }
    }
  }

  /** The `forEach` over `logStreams[from..]`: each sink, in registry order, either
      prints what `printWithFiltering` gives it or stays silent. */
  function FanOut(streams: seq<Sink>, from: nat, symboler: Symboler, r: Record, defaultLogText: string, defaultLevel: Level): (out: seq<Emission>)
    requires from <= |streams|
    ensures IsFanOut(streams, from, symboler, r, defaultLogText, defaultLevel, out)
    decreases |streams| - from
  {
    if from == |streams| then []
    else
      var rest := FanOut(streams, from + 1, symboler, r, defaultLogText, defaultLevel);
      match PrintWithFiltering(streams[from], symboler, r, defaultLogText, defaultLevel)
      case Some(text) =>
        FanOutPrepend(streams, from, symboler, r, defaultLogText, defaultLevel, text, rest);
        [Emission(from, text)] + rest
      case Nil =>
        FanOutSkip(streams, from, symboler, r, defaultLogText, defaultLevel, rest);
        rest
  }

  /** `SquidLoggerManager.print`: render the default text once, then offer the record
      to every registered sink. */
  function Print(cfg: Config, env: Env, r: Record): (out: seq<Emission>)
    ensures |out| <= |cfg.streams|
    ensures forall k :: 0 <= k < |out| ==> out[k].index < |cfg.streams|
    ensures forall k, k' :: 0 <= k < k' < |out| ==> out[k].index < out[k'].index
  {
    FanOut(cfg.streams, 0, cfg.symboler, r, Format(cfg, env, r), cfg.defaultLevel)
  }

  /** Sink `i` prints exactly when its own threshold, or the manager default when it has
      none, passes the message; categories play no part in this decision. */
  lemma PrintEmitsIff(cfg: Config, env: Env, r: Record, i: nat)
    requires i < |cfg.streams|
    ensures EmittedBy(Print(cfg, env, r), i) <==> CanFlushAs(cfg.streams[i].logLevel.GetOr(cfg.defaultLevel), r.level)
  {
    var out := Print(cfg, env, r);
    if k :| 0 <= k < |out| && out[k].index == i {
      assert PrintWithFiltering(cfg.streams[i], cfg.symboler, r, Format(cfg, env, r), cfg.defaultLevel).Some?;
    }
  }

  /** Every printed line is the sink's filtered custom text, or else the shared default text
      unfiltered. */
  lemma PrintTextChoice(cfg: Config, env: Env, r: Record, k: nat)
    requires k < |Print(cfg, env, r)|
    ensures var e := Print(cfg, env, r)[k];
            var s := cfg.streams[e.index];
            && (s.makeLogText(cfg.symboler, r).Some? ==> e.text == s.filterLogText(cfg.symboler, s.makeLogText(cfg.symboler, r).value))
            && (s.makeLogText(cfg.symboler, r).Nil? ==> e.text == Format(cfg, env, r))
  {
  }

  /** All sinks without custom text receive one and the same rendered string. */
  lemma PrintSharesDefaultText(cfg: Config, env: Env, r: Record, k: nat, k': nat)
    requires k < |Print(cfg, env, r)| && k' < |Print(cfg, env, r)|
    requires cfg.streams[Print(cfg, env, r)[k].index].makeLogText(cfg.symboler, r).Nil?
    requires cfg.streams[Print(cfg, env, r)[k'].index].makeLogText(cfg.symboler, r).Nil?
    ensures Print(cfg, env, r)[k].text == Print(cfg, env, r)[k'].text
  {
    PrintTextChoice(cfg, env, r, k);
    PrintTextChoice(cfg, env, r, k');
  }

  /** With the default registry, the console sink prints the default text exactly when
      the manager default passes the message. */
  lemma {:induction false} PrintToDefaultConsole(cfg: Config, env: Env, r: Record)
    ensures CanFlushAs(cfg.defaultLevel, r.level) ==>
              Print(Configure(cfg, DefaultStreams()), env, r) == [Emission(0, Format(cfg, env, r))]
    ensures !CanFlushAs(cfg.defaultLevel, r.level) ==> Print(Configure(cfg, DefaultStreams()), env, r) == []
  {
    var c := Configure(cfg, DefaultStreams());
    assert Format(c, env, r) == Format(cfg, env, r);
    if CanFlushAs(cfg.defaultLevel, r.level) {
      DefaultHooksPrintDefaultText(c.streams[0], c.symboler, r, Format(c, env, r), c.defaultLevel);
    }
  }

  /** After `configureLogLevel(to:at:)` the targeted sink gates against the new level,
      whatever the manager default is. */
  lemma ConfiguredStreamGatesAtLevel(cfg: Config, level: Level, typeName: string, k: int, symboler: Symboler, r: Record, text: string, defaultLevel: Level)
    requires IsFirstOfType(cfg.streams, typeName, k)
    ensures ConfigureStreamLevel(cfg, level, typeName).Success?
    ensures PrintWithFiltering(ConfigureStreamLevel(cfg, level, typeName).value.streams[k], symboler, r, text, defaultLevel).Some?
            <==> CanFlushAs(level, r.level)
  {
  }

  /** Changing the default threshold leaves the decision of every sink with its own
      threshold unchanged. */
  lemma DefaultLevelSparesOverriddenSinks(cfg: Config, level: Level, env: Env, r: Record, i: nat)
    requires i < |cfg.streams| && cfg.streams[i].logLevel.Some?
    ensures EmittedBy(Print(cfg, env, r), i) <==> EmittedBy(Print(ConfigureDefaultLevel(cfg, level), env, r), i)
  {
    PrintEmitsIff(cfg, env, r, i);
    PrintEmitsIff(ConfigureDefaultLevel(cfg, level), env, r, i);
  }
}
