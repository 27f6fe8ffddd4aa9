/** `SquidLogger`: a category of messages with an optional threshold of its own, and its
    six level methods. */
module Loggers {
  import opened Wrappers
  import opened Levels
  import opened Records
  import Manager

  /** A category: its name and its optional threshold (`nil` inherits the manager default). */
  datatype Category = Category(category: string, logLevel: Option<Level>)

  /** What `#file`, `#line` and `#function` capture at the call site. */
  datatype CallSite = CallSite(file: string, line: nat, functionName: string)

  /** The library's own category `IkaLogger`. */
  function IkaLogger(): (c: Category)
    ensures c.category == "Default" && c.logLevel == Nil
  {
    Category("Default", Nil)
  }

  /** `logLevelOrDefault`: the category's threshold, else the manager default. */
  function LogLevelOrDefault(cat: Category, cfg: Manager.Config): (l: Level)
    ensures cat.logLevel.Some? ==> l == cat.logLevel.value
    ensures cat.logLevel.Nil? ==> l == cfg.defaultLevel
  {
    cat.logLevel.GetOr(cfg.defaultLevel)
  }

  /** The category's `print`: the first gate, then the manager's fan-out. */
  function Print(cfg: Manager.Config, env: Manager.Env, cat: Category, r: Record): (out: seq<Manager.Emission>)
    ensures !CanFlushAs(LogLevelOrDefault(cat, cfg), r.level) ==> out == []
    ensures CanFlushAs(LogLevelOrDefault(cat, cfg), r.level) ==> out == Manager.Print(cfg, env, r)
  {
    if !CanFlushAs(LogLevelOrDefault(cat, cfg), r.level) then []
    else Manager.Print(cfg, env, r)
  }

  /** The record one of the level methods builds. */
  function MakeRecord(cat: Category, level: Level, payload: string, site: CallSite): (r: Record)
    ensures r.level == level && r.category == cat.category && r.payload == payload
    ensures r.file == site.file && r.line == site.line && r.functionName == site.functionName
  {
    Record(payload, level, cat.category, site.file, site.line, site.functionName)
  }

  /** `debug`, `info`, `warn`, `error`, `fatal` and `none`: the six methods differ only
      in the level they stamp on the record, which is the `level` argument here. */
  function Log(cfg: Manager.Config, env: Manager.Env, cat: Category, level: Level, payload: string, site: CallSite): (out: seq<Manager.Emission>)
    ensures |out| <= |cfg.streams|
    ensures forall k :: 0 <= k < |out| ==> out[k].index < |cfg.streams|
    ensures forall k, k' :: 0 <= k < k' < |out| ==> out[k].index < out[k'].index
  {
    Print(cfg, env, cat, MakeRecord(cat, level, payload, site))
  }

  /** The two gates together: sink `i` prints a message exactly when the category's
      threshold passes it AND the sink's own threshold (or the manager default) passes it. */
  lemma LogEmitsIff(cfg: Manager.Config, env: Manager.Env, cat: Category, level: Level, payload: string, site: CallSite, i: nat)
    requires i < |cfg.streams|
    ensures Manager.EmittedBy(Log(cfg, env, cat, level, payload, site), i)
            <==> CanFlushAs(cat.logLevel.GetOr(cfg.defaultLevel), level)
                 && CanFlushAs(cfg.streams[i].logLevel.GetOr(cfg.defaultLevel), level)
  {
    var r := MakeRecord(cat, level, payload, site);
    if CanFlushAs(LogLevelOrDefault(cat, cfg), level) {
      Manager.PrintEmitsIff(cfg, env, r, i);
    }
  }

  /** A category with its own threshold ignores changes of the manager default; a
      category without one follows the new default at once. */
  lemma CategoryThresholdPrecedence(cfg: Manager.Config, cat: Category, newDefault: Level, level: Level)
    ensures cat.logLevel.Some? ==>
              (CanFlushAs(LogLevelOrDefault(cat, Manager.ConfigureDefaultLevel(cfg, newDefault)), level)
               <==> CanFlushAs(LogLevelOrDefault(cat, cfg), level))
    ensures cat.logLevel.Nil? ==>
              (CanFlushAs(LogLevelOrDefault(cat, Manager.ConfigureDefaultLevel(cfg, newDefault)), level)
               <==> CanFlushAs(newDefault, level))
  {
  }

  /** Once the category gate passes, what is printed no longer depends on the category's
      threshold: any two categories that both let the record through print the same lines. */
  lemma SinkGateIgnoresCategoryThreshold(cfg: Manager.Config, env: Manager.Env, c1: Category, c2: Category, r: Record)
    requires CanFlushAs(LogLevelOrDefault(c1, cfg), r.level)
    requires CanFlushAs(LogLevelOrDefault(c2, cfg), r.level)
    ensures Print(cfg, env, c1, r) == Print(cfg, env, c2, r)
  {
  }

  /** A message the category gate rejects reaches no sink, whatever the registry holds. */
  lemma RejectedMessageTouchesNoSink(cfg: Manager.Config, env: Manager.Env, cat: Category, level: Level, payload: string, site: CallSite, i: nat)
    requires !CanFlushAs(LogLevelOrDefault(cat, cfg), level)
    ensures !Manager.EmittedBy(Log(cfg, env, cat, level, payload, site), i)
  {
  }
}
