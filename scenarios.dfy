/**
 * Clients of the logger, stated through the contracts of `Logging` alone:
 * the behaviours src/index.test.ts checks, and the immutability of entries.
 */
module Scenarios {
  import opened Wrappers
  import opened Fields
  import opened Logging

  /** With the flag turned off, a debug call writes nothing. */
  method DebugSuppressed(msg: string, now: int) returns (l: Logger)
    ensures fresh(l) && !l.isDebug && l.writes == []
  {
    l := new Logger();
    l.SetDebug(false);
    l.Debug(msg, now);
  }

  /** With the flag on, a debug call writes its message once, to the log sink. */
  method DebugEnabled(msg: string, now: int) returns (l: Logger)
    ensures fresh(l) && l.writes == [Write(LogSink, LogRecord(Level.Debug, map[], msg, None, now))]
  {
    l := new Logger();
    l.SetDebug(true);
    l.Debug(msg, now);
  }

  /**
   * One call per level on a new logger: one line each, in call order, on the
   * level's sink, carrying that call's message, no fields and no severity.
   */
  method EveryLevelOnce(now: int) returns (l: Logger)
    ensures fresh(l)
    ensures l.writes == [
      Write(LogSink, LogRecord(Level.Debug, map[], "Debug message", None, now)),
      Write(LogSink, LogRecord(Level.Info, map[], "Info message", None, now)),
      Write(WarnSink, LogRecord(Level.Warn, map[], "Warning message", None, now)),
      Write(ErrorSink, LogRecord(Level.Error, map[], "Error message", None, now)),
      Write(ErrorSink, LogRecord(Level.Fatal, map[], "Fatal message", None, now))]
  {
    l := new Logger();
    l.Debug("Debug message", now);
    l.Info("Info message", now);
    l.Warn("Warning message", now);
    l.Error("Error message", None, now);
    l.Fatal("Fatal message", None, now);
  }

  /** A severity handed to the root logger's `error` does not reach the record. */
  method RootErrorDropsSeverity(now: int) returns (l: Logger)
    ensures fresh(l)
    ensures l.writes == [Write(ErrorSink, LogRecord(Level.Error, map[], "boom", None, now))]
  {
    l := new Logger();
    l.Error("boom", Some(HighSeverity), now);
  }

  /** A field attached through the logger shows up, normalised, in the info record. */
  method InfoWithField(now: int) returns (l: Logger)
    ensures fresh(l)
    ensures l.writes == [Write(LogSink, LogRecord(Level.Info, map["key" := Plain(Str("value"))],
                                                  "Info with field", None, now))]
  {
    l := new Logger();
    var entry := l.WithField("key", Prim(Str("value")));
    entry.Info("Info with field", now);
    var layer := map["key" := Prim(Str("value"))];
    assert entry.fields == [layer];
    assert Merge([layer]) == Append(layer, map[]);
    assert Append(layer, map[]) == map["key" := Plain(Str("value"))];
  }

  /**
   * Deriving a new entry leaves the receiver's record unchanged: finalizing
   * before and after `withFields` gives the same record.
   */
  method FinalizeAcrossDerivation(base: Entry, layer: Layer, level: Level, msg: string,
                                  severity: Option<Severity>, now: int)
    returns (before: LogRecord, after: LogRecord)
    ensures before == after
    ensures before.fields == Merge(base.fields)
  {
    before := base.Finalize(level, msg, severity, now);
    var derived := base.WithFields(layer);
    after := base.Finalize(level, msg, severity, now);
  }
}
