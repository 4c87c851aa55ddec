// The per-task log: every call appends one timestamped line to the task's log
// text and saves the task. The process-wide log file the same call writes to
// is output only and is not modelled; the timestamp is the already formatted
// "%Y-%m-%d %H:%M:%S" text of the current time, given by the caller.

module Logger {
  import opened Models

  datatype Level = Debug | Info | Warning | Error {
    function Name(): string {
      match this
      case Debug => "DEBUG"
      case Info => "INFO"
      case Warning => "WARNING"
      case Error => "ERROR"
    }
  }

  /** The line appended for one call: "{timestamp} - {LEVEL} - {msg}\n". */
  function LogLine(stamp: string, level: Level, msg: string): (line: string)
    ensures |line| > |stamp| + |msg| && line[|line| - 1] == '\n'
  {
    stamp + " - " + level.Name() + " - " + msg + "\n"
  }

  /** A line starts with its timestamp, then " - ", the level's name and " - ",
      and carries its message right before the line break. */
  lemma LogLineLayout(stamp: string, level: Level, msg: string)
    ensures stamp <= LogLine(stamp, level, msg)
    ensures var line := LogLine(stamp, level, msg);
      |line| == |stamp| + |level.Name()| + 6 + |msg| + 1
      && line[|stamp|..|stamp| + |level.Name()| + 6] == " - " + level.Name() + " - "
    ensures var line := LogLine(stamp, level, msg); line[|line| - 1 - |msg|..|line| - 1] == msg
  {
    var line := LogLine(stamp, level, msg);
    var sep := " - " + level.Name() + " - ";
    assert line == stamp + sep + msg + "\n";
    assert line == stamp + (sep + (msg + "\n"));
    assert line[|stamp|..] == sep + (msg + "\n");
    assert (sep + (msg + "\n"))[..|sep|] == sep;
    assert line == (stamp + sep) + msg + "\n";
  }

  /** The level names differ in their first letter. */
  lemma LevelNamesDiffer(l1: Level, l2: Level)
    ensures |l1.Name()| > 0 && |l2.Name()| > 0
    ensures l1.Name()[0] == l2.Name()[0] ==> l1 == l2
  {
  }

  /** Lines with the same timestamp are equal only for the same level and message:
      the line tells which call wrote it. */
  lemma LogLineInjective(stamp: string, l1: Level, m1: string, l2: Level, m2: string)
    requires LogLine(stamp, l1, m1) == LogLine(stamp, l2, m2)
    ensures l1 == l2 && m1 == m2
  {
    var line := LogLine(stamp, l1, m1);
    LogLineLayout(stamp, l1, m1);
    LogLineLayout(stamp, l2, m2);
    LevelNamesDiffer(l1, l2);
    assert line[|stamp|..|stamp| + |l1.Name()| + 6][3] == l1.Name()[0];
    assert line[|stamp|..|stamp| + |l2.Name()| + 6][3] == l2.Name()[0];
    assert line[|stamp| + 3] == l1.Name()[0] == l2.Name()[0];
  }

  /** log_id: "{job_id} - {device name}", with "unknown-device" when the task has no device. */
  function LogId(jobId: string, device: Device?): (id: string)
    ensures device == null ==> id == jobId + " - unknown-device"
    ensures device != null ==> id == jobId + " - " + device.name
  {
    jobId + " - " + (if device != null then device.name else "unknown-device")
  }

  /** The number of line breaks in a text. */
  function Newlines(s: string): nat {
    if s == [] then 0 else Newlines(s[..|s| - 1]) + (if s[|s| - 1] == '\n' then 1 else 0)
  }

  lemma {:induction false} NewlinesAppend(a: string, b: string)
    ensures Newlines(a + b) == Newlines(a) + Newlines(b)
  {
    if b != [] {
      assert (a + b)[..|a + b| - 1] == a + b[..|b| - 1];
      assert (a + b)[|a + b| - 1] == b[|b| - 1];
      NewlinesAppend(a, b[..|b| - 1]);
    } else {
      assert a + b == a;
    }
  }

  lemma {:induction false} NoNewlines(s: string)
    requires '\n' !in s
    ensures Newlines(s) == 0
  {
    if s != [] {
      assert '\n' !in s[..|s| - 1];
      NoNewlines(s[..|s| - 1]);
    }
  }

  /** A call with a single-line message adds exactly one line to the log. */
  lemma OneLinePerCall(log: string, stamp: string, level: Level, msg: string)
    requires '\n' !in stamp && '\n' !in msg
    ensures Newlines(log + LogLine(stamp, level, msg)) == Newlines(log) + 1
  {
    var body := stamp + " - " + level.Name() + " - " + msg;
    assert '\n' !in body;
    NoNewlines(body);
    assert LogLine(stamp, level, msg) == body + "\n";
    NewlinesAppend(body, "\n");
    NewlinesAppend(log, LogLine(stamp, level, msg));
  }

  /** TaskLoggerMixIn: the four level methods over one task record. */
  class TaskLogger {
    const task: ScheduledTask
    const logId: string

    constructor (task: ScheduledTask)
      ensures this.task == task && logId == LogId(task.jobId, task.device)
    {
      this.task := task;
      logId := LogId(task.jobId, task.device);
    }

    /** Appends one line at the given level; only the log changes, and the old log is a prefix of the new one. */
    method Write(level: Level, stamp: string, msg: string)
      modifies task`log
      ensures task.log == old(task.log) + LogLine(stamp, level, msg)
      ensures old(task.log) <= task.log
    {
      task.log := task.log + LogLine(stamp, level, msg);
    }

    method Debug(stamp: string, msg: string)
      modifies task`log
      ensures task.log == old(task.log) + LogLine(stamp, Level.Debug, msg)
    {
      Write(Level.Debug, stamp, msg);
    }

    method Info(stamp: string, msg: string)
      modifies task`log
      ensures task.log == old(task.log) + LogLine(stamp, Level.Info, msg)
    {
      Write(Level.Info, stamp, msg);
    }

    method Warning(stamp: string, msg: string)
      modifies task`log
      ensures task.log == old(task.log) + LogLine(stamp, Level.Warning, msg)
    {
      Write(Level.Warning, stamp, msg);
    }

    method Error(stamp: string, msg: string)
      modifies task`log
      ensures task.log == old(task.log) + LogLine(stamp, Level.Error, msg)
    {
      Write(Level.Error, stamp, msg);
    }
  }
}
