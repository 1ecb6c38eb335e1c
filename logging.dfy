/** The structured logger of logging.py: leveled entries kept in a bounded
    in-memory buffer and queried by level and count.

    The clock, the generated trace and span identifiers and the console
    output are not part of the model: the timestamp and the generated
    identifiers are parameters of `Log`. */
module Logging {
  import opened Common

  /** `LogLevel`, an `IntEnum`. */
  datatype LogLevel = Debug | Info | Warn | Error | Fatal

  /** The level's integer value. */
  function LevelValue(l: LogLevel): (v: int)
    ensures 0 <= v <= 4
  {
    match l
    case Debug => 0
    case Info => 1
    case Warn => 2
    case Error => 3
    case Fatal => 4
  }

  /** The level's name, as stored in an entry. */
  function LevelName(l: LogLevel): string
  {
    match l
    case Debug => "DEBUG"
    case Info => "INFO"
    case Warn => "WARN"
    case Error => "ERROR"
    case Fatal => "FATAL"
  }

  /** Levels are totally ordered by value, DEBUG lowest and FATAL highest, and
      the value determines the level and its name. */
  lemma LevelOrder(a: LogLevel, b: LogLevel)
    ensures LevelValue(a) == LevelValue(b) <==> a == b
    ensures LevelValue(a) == LevelValue(b) ==> LevelName(a) == LevelName(b)
    ensures LevelValue(Debug) < LevelValue(Info) < LevelValue(Warn) < LevelValue(Error) < LevelValue(Fatal)
  {
  }

  /** A log entry; metadata values are strings. */
  datatype LogEntry = LogEntry(timestamp: int, level: string, levelNum: int, service: string,
                               environment: string, message: string, metadata: map<string, string>,
                               traceId: string, spanId: string)

  /** `metadata.get(key) or generated`: an absent or empty value is replaced. */
  function OrGenerated(metadata: map<string, string>, key: string, generated: string): (r: string)
    ensures key in metadata && metadata[key] != "" ==> r == metadata[key]
    ensures key !in metadata || metadata[key] == "" ==> r == generated
  {
    if key in metadata && metadata[key] != "" then metadata[key] else generated
  }

  /** The logger's configuration, with the defaults of `config or {}`. */
  datatype LoggerConfig = LoggerConfig(serviceName: string, environment: string, minLevel: LogLevel, maxLogs: int)

  const DefaultConfig := LoggerConfig("app", "development", Info, 1000)

  /** The buffer after appending `e`: the oldest entry is dropped when the
      buffer then exceeds `maxLogs`. */
  function Stored(logs: seq<LogEntry>, e: LogEntry, maxLogs: int): (r: seq<LogEntry>)
    requires |logs| <= Max(0, maxLogs)
    ensures |r| <= Max(0, maxLogs)
    ensures |logs| < maxLogs ==> r == logs + [e]
    ensures |logs| >= maxLogs && logs != [] ==> r == logs[1..] + [e]
    ensures maxLogs <= 0 ==> r == []
  {
    var a := logs + [e];
    if |a| > maxLogs then a[1..] else a
  }

  /** The entries with `levelNum >= v`, in buffer order. */
  function AtLeast(logs: seq<LogEntry>, v: int): (r: seq<LogEntry>)
    ensures |r| <= |logs|
    ensures forall e :: e in r <==> e in logs && e.levelNum >= v
  {
    if logs == [] then []
    else if logs[0].levelNum >= v then [logs[0]] + AtLeast(logs[1..], v)
    else AtLeast(logs[1..], v)
  }

  /** Filtering by level works on each part of a concatenation: order is kept. */
  lemma {:induction false} AtLeastConcat(a: seq<LogEntry>, b: seq<LogEntry>, v: int)
    ensures AtLeast(a + b, v) == AtLeast(a, v) + AtLeast(b, v)
  {
    if a != [] {
      assert (a + b)[1..] == a[1..] + b;
      AtLeastConcat(a[1..], b, v);
    } else {
      assert a + b == b;
    }
  }

  /** `get_logs` on a buffer: the level filter, then `filtered[-limit:]`. */
  function Query(logs: seq<LogEntry>, level: Option<LogLevel>, limit: Option<int>): (r: seq<LogEntry>)
  {
    var filtered := if level.Some? then AtLeast(logs, LevelValue(level.value)) else logs;
    if limit.Some? then PyFrom(filtered, -limit.value) else filtered
  }

  /** `get_logs(limit=k)` is the last `k` entries, and `limit=0` is all of
      them because `-0` is `0`. */
  lemma QueryLimit(logs: seq<LogEntry>, k: int)
    ensures k == 0 ==> Query(logs, None, Some(k)) == logs
    ensures 0 < k <= |logs| ==> Query(logs, None, Some(k)) == logs[|logs| - k..]
    ensures k >= |logs| ==> Query(logs, None, Some(k)) == logs
  {
  }

  /** After logging an entry whose level passes the filter, the one most
      recent entry at that level or above is that entry. */
  lemma {:induction false} LastLoggedFirstReturned(logs: seq<LogEntry>, e: LogEntry, maxLogs: int, level: LogLevel)
    requires |logs| <= Max(0, maxLogs) && maxLogs >= 1
    requires e.levelNum >= LevelValue(level)
    ensures Query(Stored(logs, e, maxLogs), Some(level), Some(1)) == [e]
  {
    var v := LevelValue(level);
    var s := Stored(logs, e, maxLogs);
    var front := s[..|s| - 1];
    assert s == front + [e];
    AtLeastConcat(front, [e], v);
    assert AtLeast([e], v) == [e] + AtLeast([], v);
  }

  /** `StructuredLogger`. */
  class StructuredLogger {
    const serviceName: string
    const environment: string
    const minLevel: LogLevel
    const maxLogs: int
    var logs: seq<LogEntry>

    /** The buffer never holds more than `max_logs` entries. */
    ghost predicate Valid()
      reads this
    {
      |logs| <= Max(0, maxLogs)
    }

    constructor(config: LoggerConfig)
      ensures Valid() && logs == []
      ensures serviceName == config.serviceName && environment == config.environment
      ensures minLevel == config.minLevel && maxLogs == config.maxLogs
    {
      serviceName := config.serviceName;
      environment := config.environment;
      minLevel := config.minLevel;
      maxLogs := config.maxLogs;
      logs := [];
    }

    /** `_create_log_entry`: the metadata's own `traceId` and `spanId` win
        when present and non-empty. */
    function CreateLogEntry(level: LogLevel, message: string, metadata: map<string, string>,
                            now: int, traceId: string, spanId: string): (e: LogEntry)
      reads this
      ensures e.levelNum == LevelValue(level) && e.level == LevelName(level)
      ensures e.service == serviceName && e.environment == environment && e.message == message
      ensures e.traceId == OrGenerated(metadata, "traceId", traceId)
      ensures e.spanId == OrGenerated(metadata, "spanId", spanId)
    {
      LogEntry(now, LevelName(level), LevelValue(level), serviceName, environment, message, metadata,
               OrGenerated(metadata, "traceId", traceId), OrGenerated(metadata, "spanId", spanId))
    }

    /** `log`: a level below `min_level` is ignored; otherwise the entry is
        stored, dropping the oldest one on overflow, and returned. */
    method Log(level: LogLevel, message: string, metadata: map<string, string>,
               now: int, traceId: string, spanId: string) returns (r: Option<LogEntry>)
      requires Valid()
      modifies this
      ensures Valid()
      ensures LevelValue(level) < LevelValue(minLevel) ==> r == None && logs == old(logs)
      ensures LevelValue(level) >= LevelValue(minLevel) ==>
                && r == Some(CreateLogEntry(level, message, metadata, now, traceId, spanId))
                && logs == Stored(old(logs), r.value, maxLogs)
    {
      if LevelValue(level) < LevelValue(minLevel) {
        return None;
      }
      var entry := CreateLogEntry(level, message, metadata, now, traceId, spanId);
      logs := logs + [entry];
      if |logs| > maxLogs {
        logs := logs[1..];
      }
      r := Some(entry);
    }

    /** `get_logs`. */
    function GetLogs(level: Option<LogLevel>, limit: Option<int>): (r: seq<LogEntry>)
      reads this
      ensures level.Some? && limit.None? ==>
                forall e :: e in r <==> e in logs && e.levelNum >= LevelValue(level.value)
      ensures limit.Some? && limit.value > 0 ==> |r| <= limit.value
      ensures level.None? && limit.Some? && limit.value == 0 ==> r == logs
    {
      Query(logs, level, limit)
    }

    /** `clear_logs`. */
    method ClearLogs()
      modifies this
      ensures logs == [] && Valid()
    {
      logs := [];
    }
  }
}
