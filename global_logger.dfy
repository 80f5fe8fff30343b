/**
  The package-level entry points: one configuration and one root session
  with an empty name and no fields, created at start-up; the package
  functions forward to the root session.
 */
module GlobalLogger {
  import opened Types
  import opened Levels
  import opened Configuration
  import opened Logging

  /** The package state: the configuration globals and the root session. */
  class Globals {
    const config: Config
    const globalSession: Logger

    /** The root session uses the package configuration, is unnamed and
        never gains fields (no package function adds any). */
    ghost predicate Valid()
      reads this, globalSession
    {
      globalSession.cfg == config && globalSession.name == "" && globalSession.fields == map[]
    }

    /** The state at start-up. */
    constructor (stdout: Sink, encode: Value -> string)
      ensures Valid() && fresh(config) && fresh(globalSession)
      ensures config.Valid() && config.encode == encode
      ensures config.outputSinks == [stdout] && config.fieldsOrder == DefaultFieldsOrder
      ensures config.logLevel == LevelInfo && config.customFields == map[]
    {
      var c := new Config(stdout, encode);
      config := c;
      globalSession := new Logger(c, "", map[]);
    }

    /** A session named exactly `name` (the root's name is empty), with no
        fields of its own yet. */
    method Session(name: string) returns (lg: Logger)
      requires Valid()
      ensures Valid()
      ensures fresh(lg) && lg.cfg == config && lg.name == name && lg.fields == map[]
    {
      lg := globalSession.Session(name);
    }

    method Fatal(message: string, data: seq<Data>, now: string, customKeys: seq<string>)
      requires Valid() && Enumerates(customKeys, config.customFields)
      modifies config.outputSinks
      ensures Valid() && unchanged(config)
      ensures Appended(old(config.outputSinks), old(RootLine(LevelFatal, message, data, now, customKeys)))
    {
      globalSession.Fatal(message, data, now, customKeys);
    }

    method Error(message: string, data: seq<Data>, now: string, customKeys: seq<string>)
      requires Valid() && Enumerates(customKeys, config.customFields)
      modifies config.outputSinks
      ensures Valid() && unchanged(config)
      ensures Emits(old(config.logLevel), LevelError) ==>
        Appended(old(config.outputSinks), old(RootLine(LevelError, message, data, now, customKeys)))
      ensures !Emits(old(config.logLevel), LevelError) ==> Untouched(old(config.outputSinks))
    {
      globalSession.Error(message, data, now, customKeys);
    }

    method Warning(message: string, data: seq<Data>, now: string, customKeys: seq<string>)
      requires Valid() && Enumerates(customKeys, config.customFields)
      modifies config.outputSinks
      ensures Valid() && unchanged(config)
      ensures Emits(old(config.logLevel), LevelWarning) ==>
        Appended(old(config.outputSinks), old(RootLine(LevelWarning, message, data, now, customKeys)))
      ensures !Emits(old(config.logLevel), LevelWarning) ==> Untouched(old(config.outputSinks))
    {
      globalSession.Warning(message, data, now, customKeys);
    }

    method Info(message: string, data: seq<Data>, now: string, customKeys: seq<string>)
      requires Valid() && Enumerates(customKeys, config.customFields)
      modifies config.outputSinks
      ensures Valid() && unchanged(config)
      ensures Emits(old(config.logLevel), LevelInfo) ==>
        Appended(old(config.outputSinks), old(RootLine(LevelInfo, message, data, now, customKeys)))
      ensures !Emits(old(config.logLevel), LevelInfo) ==> Untouched(old(config.outputSinks))
    {
      globalSession.Info(message, data, now, customKeys);
    }

    method Debug(message: string, data: seq<Data>, now: string, customKeys: seq<string>)
      requires Valid() && Enumerates(customKeys, config.customFields)
      modifies config.outputSinks
      ensures Valid() && unchanged(config)
      ensures Emits(old(config.logLevel), LevelDebug) ==>
        Appended(old(config.outputSinks), old(RootLine(LevelDebug, message, data, now, customKeys)))
      ensures !Emits(old(config.logLevel), LevelDebug) ==> Untouched(old(config.outputSinks))
    {
      globalSession.Debug(message, data, now, customKeys);
    }

    /** The line a package-level call writes: session name empty, no
        session fields. */
    function RootLine(level: LogLevel, message: string, data: seq<Data>, now: string, customKeys: seq<string>): string
      reads this, config
    {
      RecordLine("", map[], config.fieldsOrder, config.customFields, customKeys, level, message, data, now, config.encode)
    }
  }

  /** With the level set to ERROR, the five calls in turn write only the
      fatal line and then the error line; warning, info and debug write
      nothing. */
  method ErrorLevelScenario(g: Globals, now: string)
    requires g.Valid() && g.config.customFields == map[] && g.config.fieldsOrder == DefaultFieldsOrder
    modifies g.config, g.config.outputSinks
    ensures g.config.logLevel == LevelError && g.config.outputSinks == old(g.config.outputSinks)
    ensures forall s | s in g.config.outputSinks ::
      s.written == old(s.written)
                   + Repeat(g.RootLine(LevelFatal, "msg", [], now, []), multiset(g.config.outputSinks)[s])
                   + Repeat(g.RootLine(LevelError, "msg", [], now, []), multiset(g.config.outputSinks)[s])
  {
    g.config.SetLogLevel(LevelError);
    LoudAtError(g, now);
    QuietBelowError(g, now);
  }

  /** At level ERROR the fatal and then the error call each append their
      line to every sink. */
  method LoudAtError(g: Globals, now: string)
    requires g.Valid() && g.config.customFields == map[] && g.config.logLevel == LevelError
    modifies g.config.outputSinks
    ensures g.Valid()
    ensures forall s | s in g.config.outputSinks ::
      s.written == old(s.written)
                   + Repeat(g.RootLine(LevelFatal, "msg", [], now, []), multiset(g.config.outputSinks)[s])
                   + Repeat(g.RootLine(LevelError, "msg", [], now, []), multiset(g.config.outputSinks)[s])
  {
    var sinks := g.config.outputSinks;
    ghost var fatal := g.RootLine(LevelFatal, "msg", [], now, []);
    ghost var error := g.RootLine(LevelError, "msg", [], now, []);
    g.Fatal("msg", [], now, []);
    label Fatal:
    assert forall s | s in sinks :: s.written == old(s.written) + Repeat(fatal, multiset(sinks)[s]);
    g.Error("msg", [], now, []);
    assert forall s | s in sinks :: s.written == old@Fatal(s.written) + Repeat(error, multiset(sinks)[s]);
    assert g.config.outputSinks == sinks;
    assert g.RootLine(LevelFatal, "msg", [], now, []) == fatal && g.RootLine(LevelError, "msg", [], now, []) == error;
    forall s | s in sinks
      ensures s.written == old(s.written) + Repeat(fatal, multiset(sinks)[s]) + Repeat(error, multiset(sinks)[s])
    {
      assert old@Fatal(s.written) == old(s.written) + Repeat(fatal, multiset(sinks)[s]);
    }
  }

  /** At level ERROR the warning, info and debug calls change no sink. */
  method QuietBelowError(g: Globals, now: string)
    requires g.Valid() && g.config.customFields == map[] && g.config.logLevel == LevelError
    modifies g.config.outputSinks
    ensures g.Valid()
    ensures forall s | s in g.config.outputSinks :: s.written == old(s.written)
  {
    g.Warning("msg", [], now, []);
    g.Info("msg", [], now, []);
    g.Debug("msg", [], now, []);
  }
}
