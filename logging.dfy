/**
 * The root `Logger` (debug flag and emission policy), the chainable `Entry`,
 * and the bootstrap of the default entry (`getLogger`) from src/index.ts.
 *
 * Console output is a ghost trace on the logger: each `console.log`,
 * `console.warn` or `console.error` of a record appends one `Write` naming
 * the sink and the record.  The wall clock is the parameter `now`.
 */
module Logging {
  import opened Wrappers
  import opened Fields

  datatype Level = Debug | Info | Warn | Error | Fatal

  datatype Severity = LowSeverity | MediumSeverity | HighSeverity

  /** `console.log`, `console.warn` and `console.error`. */
  datatype Sink = LogSink | WarnSink | ErrorSink

  /** The `log` member of a finalized record; `severity` is absent when not given. */
  datatype LogRecord = LogRecord(
    level: Level,
    fields: Merged,
    message: string,
    severity: Option<Severity>,
    timestamp: int)

  /** One line written to one sink. */
  datatype Write = Write(sink: Sink, record: LogRecord)

  /** Which console stream a level goes to, seen from each stream. */
  function SinkFor(level: Level): (s: Sink)
    ensures s == WarnSink <==> level.Warn?
    ensures s == ErrorSink <==> level.Error? || level.Fatal?
    ensures s == LogSink <==> level.Debug? || level.Info?
  {
    match level
    case Warn => WarnSink
    case Error | Fatal => ErrorSink
    case Debug | Info => LogSink
  }

  /**
   * The emission policy: the sink a call at `level` writes to, or None when
   * the call is dropped.  Only debug calls are ever dropped, and only while
   * the debug flag is off; for every other level the flag is irrelevant.
   */
  function Emission(isDebug: bool, level: Level): (r: Option<Sink>)
    ensures r.None? <==> level.Debug? && !isDebug
    ensures !level.Debug? ==> r == Some(SinkFor(level))
    ensures r.Some? ==> r.value == SinkFor(level)
  {
    if level.Debug? && !isDebug then None else Some(SinkFor(level))
  }

  /** The writes one call to `Logger.log` performs. */
  function Emitted(isDebug: bool, level: Level, layers: seq<Layer>, msg: string,
                   severity: Option<Severity>, now: int): seq<Write>
  {
    match Emission(isDebug, level)
    case None => []
    case Some(sink) => [Write(sink, LogRecord(level, Merge(layers), msg, severity, now))]
  }

  /**
   * At most one write per call; exactly one unless it is a debug call with
   * the flag off; and the record carries the call's level, message and
   * severity with the merged fields of the entry.
   */
  lemma EmittedIsOneRecord(isDebug: bool, level: Level, layers: seq<Layer>, msg: string,
                           severity: Option<Severity>, now: int)
    ensures |Emitted(isDebug, level, layers, msg, severity, now)| ==
      (if level.Debug? && !isDebug then 0 else 1)
    ensures forall w :: w in Emitted(isDebug, level, layers, msg, severity, now) ==>
      && w.sink == SinkFor(level)
      && w.record == LogRecord(level, Merge(layers), msg, severity, now)
  {
  }

  /** The process's root logger; `isDebug` is its only state. */
  class Logger {
    var isDebug: bool
    ghost var writes: seq<Write>

    constructor ()
      ensures isDebug && writes == []
    {
      isDebug := true;
      writes := [];
    }

    method SetDebug(enabled: bool)
      modifies this
      ensures isDebug == enabled && writes == old(writes)
    {
      isDebug := enabled;
    }

    /**
     * Drops a debug call while the flag is off; otherwise finalizes the
     * entry and writes the record to the level's sink, exactly once.
     */
    method Log(level: Level, e: Entry, msg: string, severity: Option<Severity>, now: int)
      modifies this
      ensures isDebug == old(isDebug)
      ensures writes == old(writes) + Emitted(isDebug, level, e.fields, msg, severity, now)
    {
      if level == Level.Debug && !isDebug {
        return;
      }
      var entry := e.Finalize(level, msg, severity, now);
      if level == Level.Warn {
        writes := writes + [Write(WarnSink, entry)];
        return;
      }
      if level == Level.Error || level == Level.Fatal {
        writes := writes + [Write(ErrorSink, entry)];
        return;
      }
      writes := writes + [Write(LogSink, entry)];
    }

    method WithFields(fields: Layer) returns (e: Entry)
      ensures fresh(e) && e.log == this && e.fields == [fields]
    {
      var root := new Entry(this);
      e := root.WithFields(fields);
    }

    method WithField(key: string, value: Value) returns (e: Entry)
      ensures fresh(e) && e.log == this && e.fields == [map[key := value]]
    {
      var root := new Entry(this);
      e := root.WithField(key, value);
    }

    method Debug(msg: string, now: int)
      modifies this
      ensures isDebug == old(isDebug)
      ensures writes == old(writes) +
        (if isDebug then [Write(LogSink, LogRecord(Level.Debug, map[], msg, None, now))] else [])
    {
      var e := new Entry(this);
      e.Debug(msg, now);
    }

    method Info(msg: string, now: int)
      modifies this
      ensures isDebug == old(isDebug)
      ensures writes == old(writes) + [Write(LogSink, LogRecord(Level.Info, map[], msg, None, now))]
    {
      var e := new Entry(this);
      e.Info(msg, now);
    }

    method Warn(msg: string, now: int)
      modifies this
      ensures isDebug == old(isDebug)
      ensures writes == old(writes) + [Write(WarnSink, LogRecord(Level.Warn, map[], msg, None, now))]
    {
      var e := new Entry(this);
      e.Warn(msg, now);
    }

    /**
     * A severity a caller passes through `LogInterface` is not forwarded:
     * the record never carries one.
     */
    method Error(msg: string, severity: Option<Severity>, now: int)
      modifies this
      ensures isDebug == old(isDebug)
      ensures writes == old(writes) + [Write(ErrorSink, LogRecord(Level.Error, map[], msg, None, now))]
    {
      var e := new Entry(this);
      e.Error(msg, None, now);
    }

    /**
     * A severity a caller passes through `LogInterface` is not forwarded:
     * the record never carries one.
     */
    method Fatal(msg: string, severity: Option<Severity>, now: int)
      modifies this
      ensures isDebug == old(isDebug)
      ensures writes == old(writes) + [Write(ErrorSink, LogRecord(Level.Fatal, map[], msg, None, now))]
    {
      var e := new Entry(this);
      e.Fatal(msg, None, now);
    }
  }

  /**
   * An ordered sequence of field layers bound to a logger.  Adding fields
   * never changes an entry: it returns a fresh one with one more layer.
   */
  class Entry {
    var fields: seq<Layer>
    const log: Logger

    constructor (log: Logger)
      ensures this.log == log && fields == []
    {
      this.log := log;
      fields := [];
    }

    method Debug(msg: string, now: int)
      modifies log
      ensures log.isDebug == old(log.isDebug)
      ensures log.writes == old(log.writes) + Emitted(log.isDebug, Level.Debug, fields, msg, None, now)
    {
      log.Log(Level.Debug, this, msg, None, now);
    }

    method Info(msg: string, now: int)
      modifies log
      ensures log.isDebug == old(log.isDebug)
      ensures log.writes == old(log.writes) + Emitted(log.isDebug, Level.Info, fields, msg, None, now)
    {
      log.Log(Level.Info, this, msg, None, now);
    }

    method Warn(msg: string, now: int)
      modifies log
      ensures log.isDebug == old(log.isDebug)
      ensures log.writes == old(log.writes) + Emitted(log.isDebug, Level.Warn, fields, msg, None, now)
    {
      log.Log(Level.Warn, this, msg, None, now);
    }

    method Error(msg: string, severity: Option<Severity>, now: int)
      modifies log
      ensures log.isDebug == old(log.isDebug)
      ensures log.writes == old(log.writes) + Emitted(log.isDebug, Level.Error, fields, msg, severity, now)
    {
      log.Log(Level.Error, this, msg, severity, now);
    }

    method Fatal(msg: string, severity: Option<Severity>, now: int)
      modifies log
      ensures log.isDebug == old(log.isDebug)
      ensures log.writes == old(log.writes) + Emitted(log.isDebug, Level.Fatal, fields, msg, severity, now)
    {
      log.Log(Level.Fatal, this, msg, severity, now);
    }

    /** Copies the layers into a fresh list, appends `layer`, and wraps it in a new entry. */
    method WithFields(layer: Layer) returns (e: Entry)
      ensures fresh(e) && e.log == log && e.fields == fields + [layer]
    {
      var f: seq<Layer> := [];
      var i := 0;
      while i < |fields|
        invariant 0 <= i <= |fields|
        invariant f == fields[..i]
      {
        f := f + [fields[i]];
        i := i + 1;
      }
      f := f + [layer];
      e := new Entry(log);
      e.fields := f;
    }

    method WithField(key: string, value: Value) returns (e: Entry)
      ensures fresh(e) && e.log == log && e.fields == fields + [map[key := value]]
    {
      e := WithFields(map[key := value]);
    }

    method SetDebug(enabled: bool)
      modifies log
      ensures log.isDebug == enabled && log.writes == old(log.writes)
    {
      log.SetDebug(enabled);
    }

    /**
     * Packages level, message and severity as given with the merged fields;
     * reads the layers and changes nothing.
     */
    method Finalize(level: Level, msg: string, severity: Option<Severity>, now: int)
      returns (r: LogRecord)
      ensures r == LogRecord(level, Merge(fields), msg, severity, now)
    {
      var merged := MergeFields(fields);
      r := LogRecord(level, merged, msg, severity, now);
    }
  }

  /** The value `getLogger` stores as the `environment` field for NODE_ENV. */
  function EnvironmentName(env: Option<string>): (r: string)
    ensures r == "production" <==> env == Some("production")
    ensures r == "qa" <==> env == Some("staging")
    ensures r == "dev" <==> env != Some("production") && env != Some("staging")
  {
    if env == Some("production") then "production"
    else if env == Some("staging") then "qa"
    else "dev"
  }

  /**
   * `getLogger(fields)` with NODE_ENV given as `env`: a new root logger (debug
   * on, nothing written) and an entry whose single layer is the caller's
   * fields with `environment` set, overriding any caller value.
   */
  method GetLogger(fields: Layer, env: Option<string>) returns (e: Entry)
    ensures fresh(e) && fresh(e.log)
    ensures e.log.isDebug && e.log.writes == []
    ensures e.fields == [fields["environment" := Prim(Str(EnvironmentName(env)))]]
  {
    var seeded := fields["environment" := Prim(Str(EnvironmentName(env)))];
    var root := new Logger();
    e := root.WithFields(seeded);
  }

  /**
   * Every record finalized from an entry derived from the default entry
   * carries the mapped environment, as long as no later layer sets
   * `environment` itself.
   */
  lemma {:induction false} SeededEnvironment(fields: Layer, env: Option<string>, later: seq<Layer>)
    requires forall j :: 0 <= j < |later| ==> "environment" !in later[j]
    ensures var layers := [fields["environment" := Prim(Str(EnvironmentName(env)))]] + later;
      "environment" in Merge(layers) &&
      Merge(layers)["environment"] == Plain(Str(EnvironmentName(env)))
  {
    var layers := [fields["environment" := Prim(Str(EnvironmentName(env)))]] + later;
    MergeLastWriterWins(layers, "environment");
    assert "environment" in layers[0];
    forall j | 0 < j < |layers| ensures "environment" !in layers[j] {
      assert layers[j] == later[j - 1];
    }
  }
}
