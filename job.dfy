// One queue job end to end: the worker's upgrade_device around a run of the
// executor, on the understanding that the run's typed signal reaches the
// worker as a TaskException with the same reason and message.

module Job {
  import opened Wrappers
  import opened Text
  import opened Choices
  import opened DeviceOracle
  import opened UpgradeRules
  import opened Outcome
  import Executor
  import Worker

  /** The status a run leaves on the record, which the worker set to running
      before: a skip and a drop store theirs, any other ending keeps it. */
  function StatusAfterRun(v: Verdict): TaskStatus {
    match v
    case Skip(_, _) => Skipped
    case Drop(_, _) => Failed
    case _ => Running
  }

  /** An executor settled on v from a running record holds StatusAfterRun(v). */
  lemma SettledStatus(x: Executor.UpgradeDevice, v: Verdict, message0: string, reason0: FailReason)
    requires x.Settled(v, Running, message0, reason0)
    ensures x.task.status == StatusAfterRun(v)
  {
  }

  /** The worker's final record after a run: the outcome of the run's verdict,
      over the status the run left. */
  function JobEnd(v: Verdict, message: string, confirmed: bool, deviceName: Option<string>, taskType: TaskType): Worker.Final {
    Worker.Finish(OfFlow(Executor.FlowOf(v)), StatusAfterRun(v), message, confirmed, deviceName, taskType)
  }

  /** A job ends with its task failed only after an untyped error, which the
      worker marks failed as "Unknown Error", or after an upgrade whose new boot
      lines were sent; and every untyped error does end so. */
  lemma FailedJobFollowsErrorOrBootChange(f: TaskFacts, r: DeviceReplies, s: Settings, counts: QueueCounts,
                                          p0: int, c0: nat, q0: nat,
                                          message: string, confirmed: bool, deviceName: Option<string>)
    ensures var v := RunVerdict(f, r, s, counts, p0, c0, q0);
      JobEnd(v, message, confirmed, deviceName, f.taskType).status == Failed ==>
        || v.Broken?
        || (&& f.taskType == Upgrade
            && r.inventory.files != [] && TargetOf(f).Some?
            && Config(BootLines(r.bootInfo.bootLines, Strip(r.inventory.files[0].fileSystem, '/'), TargetOf(f).value))
               in RunSent(f, r, s, counts, p0, c0, q0))
    ensures var v := RunVerdict(f, r, s, counts, p0, c0, q0);
      v.Broken? ==>
        && JobEnd(v, message, confirmed, deviceName, f.taskType).status == Failed
        && JobEnd(v, message, confirmed, deviceName, f.taskType).message == "Unknown Error"
  {
    var v := RunVerdict(f, r, s, counts, p0, c0, q0);
    if v.Drop? {
      FailureFollowsBootChange(f, r, s, counts, p0, c0, q0);
    }
  }

  /** A skipped run ends the job normally, its result naming the stored
      reason value and the message. */
  lemma SkippedRunReturns(v: Verdict, message: string, confirmed: bool, deviceName: Option<string>, taskType: TaskType)
    requires v.Skip?
    ensures JobEnd(v, message, confirmed, deviceName, taskType).status == Skipped
    ensures JobEnd(v, message, confirmed, deviceName, taskType).result
         == Worker.Returned("Task was skipped. " + v.reason.Value() + ": " + v.msg)
  {
  }
}
