/** `SquidLogStreaming`: an output sink with its own threshold and optional custom rendering. */
module Streams {
  import opened Wrappers
  import opened Levels
  import opened Records

  /** A registered sink. `typeName` stands for the sink's runtime type, which is what
      `configureLogLevel(to:at:)` looks sinks up by; `makeLogText` and `filterLogText`
      are the sink's (possibly defaulted) protocol hooks, given the manager's current
      symbol strategy as well, since they may call `description()`. */
  datatype Sink = Sink(
    typeName: string,
    logLevel: Option<Level>,
    makeLogText: (Symboler, Record) -> Option<string>,
    filterLogText: (Symboler, string) -> string)

  /** The protocol's default `makeLogText`: no custom text. */
  function NoCustomText(symboler: Symboler, r: Record): Option<string> {
    Nil
  }

  /** The protocol's default `filterLogText`: the identity. */
  function Unfiltered(symboler: Symboler, text: string): string {
    text
  }

  /** A sink that keeps both protocol defaults. */
  ghost predicate UsesDefaultHooks(s: Sink) {
    forall symboler, r :: s.makeLogText(symboler, r) == Nil
  }

  /** `SquidConsoleLogger()`: the default sink, with no threshold of its own. */
  function ConsoleLogger(): (s: Sink)
    ensures s.logLevel == Nil
    ensures UsesDefaultHooks(s)
    ensures forall symboler, t :: s.filterLogText(symboler, t) == t
  {
    Sink("SquidConsoleLogger", Nil, NoCustomText, Unfiltered)
  }

  /** `logLevelOrDefault`: the sink's own threshold, else the manager default. */
  function LogLevelOrDefault(s: Sink, defaultLevel: Level): (l: Level)
    ensures s.logLevel.Some? ==> l == s.logLevel.value
    ensures s.logLevel.Nil? ==> l == defaultLevel
  {
    s.logLevel.GetOr(defaultLevel)
  }

  /** `makeFilteredLogText`: the custom text passed through the filter, if there is custom text. */
  function MakeFilteredLogText(s: Sink, symboler: Symboler, r: Record): (t: Option<string>)
    ensures t.Some? <==> s.makeLogText(symboler, r).Some?
    ensures t.Some? ==> t.value == s.filterLogText(symboler, s.makeLogText(symboler, r).value)
  {
    match s.makeLogText(symboler, r)
    case Some(text) => Some(s.filterLogText(symboler, text))
    case Nil => Nil
  }

  /** `printWithFiltering`: the text this sink prints for `r`, or `Nil` when its gate
      suppresses the message. */
  function PrintWithFiltering(s: Sink, symboler: Symboler, r: Record, defaultLogText: string, defaultLevel: Level): (out: Option<string>)
    ensures out.Some? <==>
              (s.logLevel.Some? && CanFlushAs(s.logLevel.value, r.level))
              || (s.logLevel.Nil? && CanFlushAs(defaultLevel, r.level))
    ensures out.Some? && s.makeLogText(symboler, r).Some? ==> out.value == s.filterLogText(symboler, s.makeLogText(symboler, r).value)
    ensures out.Some? && s.makeLogText(symboler, r).Nil? ==> out.value == defaultLogText
  {
    if !CanFlushAs(LogLevelOrDefault(s, defaultLevel), r.level) then Nil
    else Some(MakeFilteredLogText(s, symboler, r).GetOr(defaultLogText))
  }

  /** A sink with the protocol defaults prints exactly the shared default text whenever it prints. */
  lemma DefaultHooksPrintDefaultText(s: Sink, symboler: Symboler, r: Record, defaultLogText: string, defaultLevel: Level)
    requires UsesDefaultHooks(s)
    requires CanFlushAs(LogLevelOrDefault(s, defaultLevel), r.level)
    ensures PrintWithFiltering(s, symboler, r, defaultLogText, defaultLevel) == Some(defaultLogText)
  {
    assert s.makeLogText(symboler, r) == Nil;
  }
}
