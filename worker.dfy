// The queue job around the executor (worker.py): it marks the record running,
// lets the executor run, and then finalises the record according to how the
// run ended. The executor it calls comes from a module that is not part of
// this model; what the worker sees of it is an ExecOutcome, and the record as
// the executor left it. The database aggregate behind the summary and the
// queue's counters are given as values.

module Worker {
  import opened Wrappers
  import opened Text
  import opened Choices
  import CustomExceptions
  import TaskExceptions
  import opened Outcome
  import opened Models
  import opened Logger

  // ---------------------------------------------------------------- the summary

  /** The queue as add_summary reads it: jobs still queued, and jobs in the started registry. */
  datatype QueueState = QueueState(queued: nat, started: nat)

  /** One row of the status aggregate. */
  datatype StatusCount = StatusCount(status: TaskStatus, count: nat)

  /** The statuses in ascending order of their stored values (order_by("status")). */
  const StatusOrder: seq<TaskStatus> := [Failed, Running, Scheduled, Skipped, Succeeded, Unknown]

  /** The position of a status in StatusOrder. */
  function Rank(s: TaskStatus): (k: nat)
    ensures k < |StatusOrder| && StatusOrder[k] == s
  {
    match s
    case Failed => 0
    case Running => 1
    case Scheduled => 2
    case Skipped => 3
    case Succeeded => 4
    case Unknown => 5
  }

  /** Rank undoes indexing into StatusOrder. */
  lemma RankOfOrder(k: nat)
    requires k < |StatusOrder|
    ensures Rank(StatusOrder[k]) == k
  {
    if k == 0 {} else if k == 1 {} else if k == 2 {} else if k == 3 {} else if k == 4 {} else {}
  }

  /** Strict lexicographic order on strings, as the database sorts the stored values. */
  predicate LexLess(a: string, b: string) {
    if a == [] then b != []
    else if b == [] then false
    else a[0] < b[0] || (a[0] == b[0] && LexLess(a[1..], b[1..]))
  }

  lemma {:induction false} LexLessTransitive(a: string, b: string, c: string)
    requires LexLess(a, b) && LexLess(b, c)
    ensures LexLess(a, c)
  {
    if a != [] && b != [] && c != [] && a[0] == b[0] && b[0] == c[0] {
      LexLessTransitive(a[1..], b[1..], c[1..]);
    }
  }

  /** StatusOrder is the ascending order of the stored values. */
  lemma StatusOrderAscending()
    ensures forall i :: 0 <= i < |StatusOrder| - 1 ==> LexLess(StatusOrder[i].Value(), StatusOrder[i + 1].Value())
  {
    assert LexLess("failed", "running");
    assert LexLess("running", "scheduled");
    assert LexLess("scheduled", "skipped") by {
      assert "scheduled"[1..] == "cheduled" && "skipped"[1..] == "kipped";
    }
    assert LexLess("skipped", "succeeded") by {
      assert "skipped"[1..] == "kipped" && "succeeded"[1..] == "ucceeded";
    }
    assert LexLess("succeeded", "unknown");
  }

  /** Rank follows the order of the stored values. */
  lemma {:induction false} RankFollowsValues(s: TaskStatus, t: TaskStatus)
    requires Rank(s) < Rank(t)
    ensures LexLess(s.Value(), t.Value())
  {
    StatusOrderAscending();
    var k := Rank(s);
    while k + 1 < Rank(t)
      invariant Rank(s) <= k < Rank(t)
      invariant k == Rank(s) || LexLess(s.Value(), StatusOrder[k].Value())
      decreases Rank(t) - k
    {
      if k == Rank(s) {
        assert LexLess(s.Value(), StatusOrder[k + 1].Value());
      } else {
        LexLessTransitive(s.Value(), StatusOrder[k].Value(), StatusOrder[k + 1].Value());
      }
      k := k + 1;
    }
    if k != Rank(s) {
      LexLessTransitive(s.Value(), StatusOrder[k].Value(), t.Value());
    }
  }

  /** How many of the tasks have status s. */
  function CountOf(statuses: seq<TaskStatus>, s: TaskStatus): nat {
    multiset(statuses)[s]
  }

  /** The aggregate rows for the statuses from rank k on: one row per status that occurs. */
  function Rows(statuses: seq<TaskStatus>, k: nat): seq<StatusCount>
    requires k <= |StatusOrder|
    decreases |StatusOrder| - k
  {
    if k == |StatusOrder| then []
    else
      var s := StatusOrder[k];
      (if CountOf(statuses, s) > 0 then [StatusCount(s, CountOf(statuses, s))] else []) + Rows(statuses, k + 1)
  }

  /** values("status").order_by("status").annotate(sum=Count("status")) over the tasks' statuses. */
  function Stats(statuses: seq<TaskStatus>): seq<StatusCount> {
    Rows(statuses, 0)
  }

  /** The rows from rank k on: every row counts a status of rank at least k that occurs, with its count. */
  lemma {:induction false} RowsAreCounts(statuses: seq<TaskStatus>, k: nat)
    requires k <= |StatusOrder|
    ensures forall i :: 0 <= i < |Rows(statuses, k)| ==>
      k <= Rank(Rows(statuses, k)[i].status) && Rows(statuses, k)[i].count == CountOf(statuses, Rows(statuses, k)[i].status) > 0
    ensures |Rows(statuses, k)| <= |StatusOrder| - k
    decreases |StatusOrder| - k
  {
    if k < |StatusOrder| {
      RowsAreCounts(statuses, k + 1);
      RowsHead(statuses, k);
      RankOfOrder(k);
    }
  }

  /** One step of Rows: the row for rank k, if its status occurs, comes before the later rows. */
  lemma RowsHead(statuses: seq<TaskStatus>, k: nat)
    requires k < |StatusOrder|
    ensures CountOf(statuses, StatusOrder[k]) > 0 ==>
      Rows(statuses, k) == [StatusCount(StatusOrder[k], CountOf(statuses, StatusOrder[k]))] + Rows(statuses, k + 1)
    ensures CountOf(statuses, StatusOrder[k]) == 0 ==> Rows(statuses, k) == Rows(statuses, k + 1)
  {
  }

  /** Rows in strictly ascending rank. */
  predicate Ascending(rows: seq<StatusCount>) {
    forall i, j :: 0 <= i < j < |rows| ==> Rank(rows[i].status) < Rank(rows[j].status)
  }

  /** A row ranked below every later row keeps ascending rows ascending. */
  lemma AscendingCons(row: StatusCount, rest: seq<StatusCount>)
    requires Ascending(rest)
    requires forall i :: 0 <= i < |rest| ==> Rank(row.status) < Rank(rest[i].status)
    ensures Ascending([row] + rest)
  {
    var rows := [row] + rest;
    forall i, j | 0 <= i < j < |rows|
      ensures Rank(rows[i].status) < Rank(rows[j].status)
    {
      assert rows[j] == rest[j - 1];
      if i > 0 {
        assert rows[i] == rest[i - 1];
      }
    }
  }

  /** The rows from rank k on are in strictly ascending rank. */
  lemma {:induction false} RowsAscending(statuses: seq<TaskStatus>, k: nat)
    requires k <= |StatusOrder|
    ensures Ascending(Rows(statuses, k))
    decreases |StatusOrder| - k
  {
    if k < |StatusOrder| {
      RowsAscending(statuses, k + 1);
      RowsAreCounts(statuses, k + 1);
      RowsHead(statuses, k);
      RankOfOrder(k);
      var s := StatusOrder[k];
      if CountOf(statuses, s) > 0 {
        AscendingCons(StatusCount(s, CountOf(statuses, s)), Rows(statuses, k + 1));
      }
    }
  }

  /** Every status of rank at least k that occurs has a row from rank k on. */
  lemma {:induction false} RowsComplete(statuses: seq<TaskStatus>, k: nat, s: TaskStatus)
    requires k <= Rank(s) && CountOf(statuses, s) > 0
    ensures exists i :: 0 <= i < |Rows(statuses, k)| && Rows(statuses, k)[i].status == s
    decreases |StatusOrder| - k
  {
    RowsHead(statuses, k);
    RankOfOrder(k);
    var rows := Rows(statuses, k);
    if Rank(s) == k {
      assert rows[0].status == s;
    } else {
      RowsComplete(statuses, k + 1, s);
      var rest := Rows(statuses, k + 1);
      var i :| 0 <= i < |rest| && rest[i].status == s;
      if CountOf(statuses, StatusOrder[k]) > 0 {
        assert rows[i + 1] == rest[i];
      } else {
        assert rows[i] == rest[i];
      }
    }
  }

  /** The aggregate: ascending by stored value, one row per status present, each with its count. */
  lemma StatsShape(statuses: seq<TaskStatus>)
    ensures forall i :: 0 <= i < |Stats(statuses)| ==>
      Stats(statuses)[i].count == CountOf(statuses, Stats(statuses)[i].status) > 0
    ensures forall i, j :: 0 <= i < j < |Stats(statuses)| ==>
      LexLess(Stats(statuses)[i].status.Value(), Stats(statuses)[j].status.Value())
    ensures forall s :: s in statuses <==> exists i :: 0 <= i < |Stats(statuses)| && Stats(statuses)[i].status == s
  {
    RowsAreCounts(statuses, 0);
    RowsAscending(statuses, 0);
    var rows := Stats(statuses);
    assert Ascending(rows);
    forall i, j | 0 <= i < j < |rows|
      ensures LexLess(rows[i].status.Value(), rows[j].status.Value())
    {
      RankFollowsValues(rows[i].status, rows[j].status);
    }
    forall s
      ensures s in statuses <==> exists i :: 0 <= i < |rows| && rows[i].status == s
    {
      if s in statuses {
        assert CountOf(statuses, s) > 0;
        RowsComplete(statuses, 0, s);
      }
      if exists i :: 0 <= i < |rows| && rows[i].status == s {
        var i :| 0 <= i < |rows| && rows[i].status == s;
        assert multiset(statuses)[s] > 0;
      }
    }
  }

  /** The sum of the counts of some rows. */
  function Total(rows: seq<StatusCount>): nat {
    if rows == [] then 0 else rows[0].count + Total(rows[1..])
  }

  /** How many of the tasks have a status of rank at least k. */
  function CountFrom(statuses: seq<TaskStatus>, k: nat): nat {
    if statuses == [] then 0
    else CountFrom(statuses[..|statuses| - 1], k) + (if Rank(statuses[|statuses| - 1]) >= k then 1 else 0)
  }

  lemma {:induction false} CountFromSplits(statuses: seq<TaskStatus>, k: nat)
    requires k < |StatusOrder|
    ensures CountFrom(statuses, k) == CountOf(statuses, StatusOrder[k]) + CountFrom(statuses, k + 1)
  {
    if statuses != [] {
      var init, last := statuses[..|statuses| - 1], statuses[|statuses| - 1];
      assert statuses == init + [last];
      CountFromSplits(init, k);
      assert multiset(statuses) == multiset(init) + multiset{last};
    }
  }

  lemma {:induction false} CountFromZero(statuses: seq<TaskStatus>)
    ensures CountFrom(statuses, 0) == |statuses|
  {
    if statuses != [] {
      CountFromZero(statuses[..|statuses| - 1]);
    }
  }

  lemma {:induction false} CountFromEnd(statuses: seq<TaskStatus>)
    ensures CountFrom(statuses, |StatusOrder|) == 0
  {
    if statuses != [] {
      CountFromEnd(statuses[..|statuses| - 1]);
    }
  }

  lemma {:induction false} RowsTotal(statuses: seq<TaskStatus>, k: nat)
    requires k <= |StatusOrder|
    ensures Total(Rows(statuses, k)) == CountFrom(statuses, k)
    decreases |StatusOrder| - k
  {
    if k == |StatusOrder| {
      CountFromEnd(statuses);
    } else {
      RowsTotal(statuses, k + 1);
      CountFromSplits(statuses, k);
      RowsHead(statuses, k);
      var s := StatusOrder[k];
      if CountOf(statuses, s) > 0 {
        var rows := Rows(statuses, k);
        assert rows[1..] == Rows(statuses, k + 1);
      }
    }
  }

  /** The per-status counts add up to the total the summary starts with. */
  lemma StatsAddUp(statuses: seq<TaskStatus>)
    ensures Total(Stats(statuses)) == |statuses|
  {
    RowsTotal(statuses, 0);
    CountFromZero(statuses);
  }

  /** The " / {status} {count}" parts of the summary, in row order. */
  function Segments(rows: seq<StatusCount>): string {
    if rows == [] then "" else Segments(rows[..|rows| - 1]) + Part(rows[|rows| - 1])
  }

  /** The part one row adds: " / {status} {count}". */
  function Part(row: StatusCount): string {
    " / " + row.status.Value() + " " + NatStr(row.count)
  }

  /** The summary text: "total {total}" and then one part per row. */
  function SummaryText(total: nat, rows: seq<StatusCount>): string {
    "total " + NatStr(total) + Segments(rows)
  }

  /** The summary's parts of two groups of rows are the parts of each group in turn. */
  lemma {:induction false} SegmentsAppend(a: seq<StatusCount>, b: seq<StatusCount>)
    ensures Segments(a + b) == Segments(a) + Segments(b)
    decreases |b|
  {
    if b != [] {
      var init, last := b[..|b| - 1], b[|b| - 1];
      assert (a + b)[..|a + b| - 1] == a + init;
      assert (a + b)[|a + b| - 1] == last;
      SegmentsAppend(a, init);
      AppendAssoc(Segments(a), Segments(init), Part(last));
    } else {
      assert a + b == a;
    }
  }

  /** No stored status value contains a space. */
  lemma ValueHasNoSpace(s: TaskStatus)
    ensures ' ' !in s.Value()
  {
    match s {
      case Unknown =>
      case Scheduled =>
      case Failed =>
      case Running =>
      case Succeeded =>
      case Skipped =>
    }
  }

  /** The index of the first space in a text, or its length when there is none. */
  function FirstSpace(t: string): (k: nat)
    ensures k <= |t|
  {
    if t == [] || t[0] == ' ' then 0 else 1 + FirstSpace(t[1..])
  }

  /** A word without spaces followed by a space: the first space is right after the word. */
  lemma {:induction false} FirstSpaceAfterWord(a: string, x: string)
    requires ' ' !in a
    ensures FirstSpace(a + " " + x) == |a|
  {
    if a != [] {
      assert (a + " " + x)[1..] == a[1..] + " " + x;
      assert ' ' !in a[1..];
      FirstSpaceAfterWord(a[1..], x);
    }
  }

  /** The first space splits a text: words without spaces before it are equal. */
  lemma SplitAtSpace(a: string, x: string, b: string, y: string)
    requires ' ' !in a && ' ' !in b && a + " " + x == b + " " + y
    ensures a == b
  {
    var t := a + " " + x;
    FirstSpaceAfterWord(a, x);
    FirstSpaceAfterWord(b, y);
    assert a == t[..|a|] == b;
  }

  /** A part of the summary names its row's status: two rows whose parts read alike have the same status. */
  lemma PartNamesStatus(a: StatusCount, b: StatusCount)
    requires Part(a) == Part(b)
    ensures a.status == b.status
  {
    ValueHasNoSpace(a.status);
    ValueHasNoSpace(b.status);
    var n1, n2 := NatStr(a.count), NatStr(b.count);
    assert Part(a) == " / " + (a.status.Value() + " " + n1);
    assert Part(b) == " / " + (b.status.Value() + " " + n2);
    assert Part(a)[3..] == a.status.Value() + " " + n1;
    assert Part(b)[3..] == b.status.Value() + " " + n2;
    SplitAtSpace(a.status.Value(), n1, b.status.Value(), n2);
    StatusValueInjective(a.status, b.status);
  }

  /** The part of the i-th row sits in the summary right after the parts of the rows before it. */
  lemma PartInSummary(total: nat, rows: seq<StatusCount>, i: nat)
    requires i < |rows|
    ensures var at := |"total " + NatStr(total) + Segments(rows[..i])|;
      OccursAt(SummaryText(total, rows), Part(rows[i]), at)
  {
    var before, after := rows[..i], rows[i + 1..];
    var p := Part(rows[i]);
    assert rows == before + ([rows[i]] + after);
    SegmentsAppend(before, [rows[i]] + after);
    SegmentsAppend([rows[i]], after);
    assert [rows[i]][..0] == [];
    assert Segments([rows[i]]) == p;
    var head := "total " + NatStr(total) + Segments(before);
    var text := SummaryText(total, rows);
    AppendAssoc("total " + NatStr(total), Segments(before), Segments([rows[i]] + after));
    AppendAssoc(head, p, Segments(after));
    assert text == head + p + Segments(after);
    assert text[|head|..|head| + |p|] == p;
  }

  /** The summary text reports a status with its count exactly when some task
      has it: " / {status} {count}" occurs in the text for every status a task
      has, and a part of the text names a status only if a task has it. */
  lemma SummaryReportsEachStatus(statuses: seq<TaskStatus>, s: TaskStatus)
    ensures s in statuses ==>
      Contains(SummaryText(|statuses|, Stats(statuses)), " / " + s.Value() + " " + NatStr(CountOf(statuses, s)))
    ensures (exists i :: 0 <= i < |Stats(statuses)| && Part(Stats(statuses)[i]) == Part(StatusCount(s, CountOf(statuses, s))))
      <==> s in statuses
  {
    StatsShape(statuses);
    var rows := Stats(statuses);
    var p := Part(StatusCount(s, CountOf(statuses, s)));
    if s in statuses {
      var i :| 0 <= i < |rows| && rows[i].status == s;
      assert rows[i] == StatusCount(s, CountOf(statuses, s));
      PartInSummary(|statuses|, rows, i);
    }
    if exists i :: 0 <= i < |rows| && Part(rows[i]) == p {
      var i :| 0 <= i < |rows| && Part(rows[i]) == p;
      PartNamesStatus(rows[i], StatusCount(s, CountOf(statuses, s)));
    }
  }

  /** The loop of add_summary that builds the summary text. */
  method BuildSummary(total: nat, rows: seq<StatusCount>) returns (overall: string)
    ensures overall == SummaryText(total, rows)
  {
    overall := "";
    for i := 0 to |rows|
      invariant overall == Segments(rows[..i])
    {
      assert rows[..i + 1][..i] == rows[..i];
      overall := overall + Part(rows[i]);
    }
    assert rows[..|rows|] == rows;
    overall := "total " + NatStr(total) + overall;
  }

  /** The closing line about the queue: empty with one started job, empty otherwise, or jobs remain. */
  function QueueMessage(q: QueueState): (m: string)
    ensures m == "All tasks have been completed." <==> q.queued == 0 && q.started == 1
    ensures m == "No queued tasks were remained" <==> q.queued == 0 && q.started != 1
    ensures q.queued > 0 <==> m == "Remained task: " + NatStr(q.queued) + ". Taking the next one."
  {
    if q.queued == 0 then
      if q.started == 1 then "All tasks have been completed." else "No queued tasks were remained"
    else
      var m := "Remained task: " + NatStr(q.queued) + ". Taking the next one.";
      assert m[0] == 'R';
      m
  }

  /** The line about the final status. */
  function EndedMessage(status: TaskStatus): string {
    "Task ended with status \"" + status.Value() + "\""
  }

  /** The three lines add_summary logs for the final status, the tasks sharing the scheduled time and the queue. */
  function SummaryLines(stamp: string, status: TaskStatus, peers: seq<TaskStatus>, q: QueueState): string {
    LogLine(stamp, Level.Info, EndedMessage(status))
    + LogLine(stamp, Level.Info, "Summary: " + SummaryText(|peers|, Stats(peers)))
    + LogLine(stamp, Level.Info, QueueMessage(q))
  }

  /** add_summary(status): logs the final status, the summary and the queue line; only the log changes. */
  method AddSummary(logger: TaskLogger, stamp: string, status: TaskStatus, peers: seq<TaskStatus>, q: QueueState)
    modifies logger.task`log
    ensures logger.task.log == old(logger.task.log) + SummaryLines(stamp, status, peers, q)
  {
    var overall := BuildSummary(|peers|, Stats(peers));
    var ended, closing := EndedMessage(status), QueueMessage(q);
    ghost var log0 := logger.task.log;
    logger.Info(stamp, ended);
    logger.Info(stamp, "Summary: " + overall);
    logger.Info(stamp, closing);
    ghost var l1, l2, l3 := LogLine(stamp, Level.Info, ended), LogLine(stamp, Level.Info, "Summary: " + overall),
      LogLine(stamp, Level.Info, closing);
    assert logger.task.log == log0 + l1 + l2 + l3;
    AppendAssoc(log0 + l1, l2, l3);
    AppendAssoc(log0, l1, l2 + l3);
    AppendAssoc(l1, l2, l3);
  }

  // ---------------------------------------------------------------- the job

  /** How the job ends: it returns a text, or re-raises the typed exception or an untyped error. */
  datatype JobResult = Returned(text: string) | ReRaised(error: Option<TaskExceptions.TaskException>)

  /** The record fields finalisation decides, and the job's result. */
  datatype Final = Final(status: TaskStatus, message: string, confirmed: bool, result: JobResult)

  /** The finalisation for an executor outcome, from the status, message and
      confirmation the executor left, the device's name (None without a
      device) and the task type. */
  function Finish(o: ExecOutcome, status: TaskStatus, message: string, confirmed: bool,
                  deviceName: Option<string>, taskType: TaskType): (f: Final)
    ensures f.result.Returned? <==> (o.Signalled? && status == Skipped) || (o.Completed? && deviceName.Some?)
    ensures o.Signalled? && status == Skipped ==> f.result == Returned("Task was skipped. " + o.reason + ": " + o.message)
    ensures o.Signalled? && status != Skipped ==> f.result == ReRaised(Some(AsTaskException(o)))
    ensures o.Completed? && deviceName.Some? ==> f.result == Returned(deviceName.value + "/" + taskType.Value() + ": Done")
    ensures f.status == (if o.Completed? then Succeeded else if o.Errored? then Failed else status)
    ensures f.message == (if o.Errored? then "Unknown Error" else message)
    ensures f.confirmed <==> confirmed || o.Completed? || (o.Signalled? && status == Skipped)
  {
    match o
    case Signalled(reason, msg) =>
      if status == Skipped then Final(status, message, true, Returned("Task was skipped. " + reason + ": " + msg))
      else Final(status, message, confirmed, ReRaised(Some(TaskExceptions.TaskException(reason, msg))))
    case Errored => Final(Failed, "Unknown Error", confirmed, ReRaised(None))
    case Completed =>
      Final(Succeeded, message, true,
            if deviceName.Some? then Returned(deviceName.value + "/" + taskType.Value() + ": Done") else ReRaised(None))
  }

  /** Only a typed exception can fail a task the executor did not mark failed, and then only if it left it so. */
  lemma FailedTaskWasFailed(o: ExecOutcome, status: TaskStatus, message: string, confirmed: bool,
                            deviceName: Option<string>, taskType: TaskType)
    requires Finish(o, status, message, confirmed, deviceName, taskType).status == Failed
    ensures o.Errored? || (o.Signalled? && status == Failed)
    ensures Finish(o, status, message, confirmed, deviceName, taskType).result.ReRaised?
  {
  }

  /** A job that returns normally leaves its task confirmed, so it needs no operator ACK. */
  lemma ReturnedMeansConfirmed(o: ExecOutcome, status: TaskStatus, message: string, confirmed: bool,
                               deviceName: Option<string>, taskType: TaskType)
    requires Finish(o, status, message, confirmed, deviceName, taskType).result.Returned?
    ensures Finish(o, status, message, confirmed, deviceName, taskType).confirmed
    ensures Finish(o, status, message, confirmed, deviceName, taskType).status in {Skipped, Succeeded}
  {
  }

  /** A typed exception crosses the job as a TaskException with the executor's reason and message. */
  lemma SignalKeepsItsWords(e: CustomExceptions.UpgradeException, status: TaskStatus, message: string, confirmed: bool,
                            deviceName: Option<string>, taskType: TaskType)
    requires status != Skipped
    ensures match Finish(OfFlow(Raise(e)), status, message, confirmed, deviceName, taskType).result
      case ReRaised(Some(t)) => t.reason == e.reason && t.message == e.message
      case _ => false
  {
  }

  /** The name of a record's device, if it has one. */
  function DeviceName(d: Device?): Option<string> {
    if d == null then None else Some(d.name)
  }

  /** The statements before the try: start_time is now and the status is running. */
  method Start(task: ScheduledTask, now: int)
    modifies task`startTime, task`status
    ensures task.startTime == Some(now) && task.status == Running
  {
    task.startTime := Some(now);
    task.status := Running;
  }

  /** The branch of upgrade_device() for the executor's outcome: the fields
      it sets and what the job returns or raises. */
  method Conclude(task: ScheduledTask, o: ExecOutcome, now: int) returns (result: JobResult)
    modifies task`status, task`message, task`confirmed, task`endTime
    ensures var f := Finish(o, old(task.status), old(task.message), old(task.confirmed), DeviceName(task.device), task.taskType);
      && task.status == f.status && task.message == f.message && task.confirmed == f.confirmed
      && result == f.result
    ensures task.endTime == Some(now)
  {
    match o {
    case Signalled(reason, msg) =>
      task.endTime := Some(now);
      if task.status == Skipped {
        task.confirmed := true;
        result := Returned("Task was skipped. " + reason + ": " + msg);
      } else {
        result := ReRaised(Some(AsTaskException(o)));
      }
    case Errored =>
      task.status := Failed;
      task.message := "Unknown Error";
      task.endTime := Some(now);
      result := ReRaised(None);
    case Completed =>
      task.endTime := Some(now);
      task.status := Succeeded;
      task.confirmed := true;
      // task.device.name raises when the record has no device.
      result := if task.device == null then ReRaised(None) else Returned(task.device.name + "/" + task.taskType.Value() + ": Done");
    }
  }

  /** The rest of upgrade_device(): the branch for the executor's outcome, with
      end_time set and add_summary called once on every path. The statuses of
      the other tasks with the same scheduled time and the queue counters are
      what the database and the queue hold at that moment. Every branch of the
      source sets its fields and calls add_summary before it returns or
      raises, so choosing the result first changes nothing. */
  method Finalise(task: ScheduledTask, logger: TaskLogger, o: ExecOutcome, now: int, stamp: string,
                  others: seq<TaskStatus>, q: QueueState)
    returns (result: JobResult)
    requires logger.task == task
    modifies task`status, task`message, task`confirmed, task`endTime, task`log
    ensures var f := Finish(o, old(task.status), old(task.message), old(task.confirmed), DeviceName(task.device), task.taskType);
      && task.status == f.status && task.message == f.message && task.confirmed == f.confirmed
      && result == f.result
    ensures task.endTime == Some(now)
    ensures task.log == old(task.log) + SummaryLines(stamp, task.status, others + [task.status], q)
  {
    result := Conclude(task, o, now);
    AddSummary(logger, stamp, task.status, others + [task.status], q);
  }

  /** The task's own final status is among the summary's rows. */
  lemma OwnStatusInSummary(others: seq<TaskStatus>, status: TaskStatus)
    ensures exists i :: 0 <= i < |Stats(others + [status])| && Stats(others + [status])[i].status == status
    ensures |others + [status]| == |others| + 1
  {
    StatsShape(others + [status]);
    assert status in others + [status];
  }
}
