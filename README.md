# netbox-software-manager: the upgrade executor, its worker and its records

A NetBox plugin that uploads IOS images to Cisco devices and reloads them onto
the new image. An operator schedules a task, and a queue job runs it:

- `worker.upgrade_device` marks the task running and runs the executor it
  builds from `task_executor.TaskExecutor`; that module is not part of this
  model, and the executor modelled here is `upgrade.UpgradeDevice`.
- The executor checks the task, probes the device,
  validates it and then either uploads the image over FTP or reloads the
  device onto it and checks it afterwards.
- The worker then records how the run ended and logs a summary of the tasks
  scheduled for the same time.

This project models that core in Dafny: the records, the vocabulary, the two
exception classes, the per-task log, the executor, the worker and the
template helpers.

## Model structure

- **The device is an oracle.** The executor talks to a device and an FTP
  server; the model replaces both by `DeviceOracle.DeviceReplies`, a value that
  holds every reply a run can read:
  - the answers to successive connection attempts and to successive liveness
    probes are streams, read through cursors the executor advances;
  - each command's reply (the inventory, the MD5 check, the copy, the boot
    variable, the reload, the post-check) is a field.
- **Exceptions are returned values.** A raised exception is the returned
  `Flow`: `Proceed`, `Raise(UpgradeException)`, or `Crash` for an untyped
  Python error (an attribute of `None`, an index past a list, a type error in
  a comparison).
- **Each step has a verdict function.** `UpgradeRules` computes, as pure
  functions of the facts and the replies, what every step decides (`Verdict`:
  pass, skip, drop or broken), what it sends to the device, and what it writes
  to the version custom field.
- **The executor is a class proved against those functions.**
  `Executor.UpgradeDevice` carries the session state (host, port, transport,
  the cursors, what was sent) and changes the task record and the device's
  custom fields step by step. Each method is proved to
  - return `FlowOf` the step's verdict,
  - leave the record `Settled` as that verdict says (a skip or drop stored
    with its reason and message and reported in the log),
  - have sent exactly the step's commands,
  - leave the custom fields as the step's write says.
- **Lemmas state the policy the code implements.** For example: validation
  never drops a task (`drop_task`); the executor drops a task only after an
  upgrade sent its new boot lines; a job ends with its task failed only then
  or after an untyped error, which the worker marks failed as "Unknown Error";
  an upload never writes the version field.
- **The worker is joined to the executor by an outcome value.** `Worker`
  receives the executor's outcome as `Outcome.ExecOutcome`: completed, a typed
  signal with reason and message, or an untyped error. It finalises the
  record and the job's result (`Worker.Finish`, proved in `Worker.Conclude`
  and `Worker.Finalise`). `Outcome.OfFlow` takes a raised `UpgradeException`
  to reach the worker as a `TaskException` with the same reason and message,
  which is what the missing `task_executor` is taken to do (see "Left out").
  `Job` joins a run's verdict to the worker's final record. Its summary line is proved against a specification
  of the status aggregate: `Stats` computes one ordered row per status that
  occurs, with its count.

Modules, one per source file (plus the shared string helpers in `Text` and
`Wrappers`):

| file | module | source |
|---|---|---|
| text.dfy | Wrappers, Text | Python string operations used by the core |
| choices.dfy | Choices | software_manager/choices.py |
| exceptions.dfy | CustomExceptions, TaskExceptions, Outcome | custom_exceptions.py, task_exceptions.py |
| models.dfy | Models | software_manager/models.py |
| logger.dfy | Logger | software_manager/logger.py |
| device_oracle.dfy | DeviceOracle | what upgrade.py reads from the device and the settings |
| upgrade_rules.dfy | UpgradeRules | the decisions of software_manager/upgrade.py |
| executor.dfy | Executor | software_manager/upgrade.py, class UpgradeDevice |
| worker.dfy | Worker | software_manager/worker.py |
| form_helpers.dfy | FormHelpers | software_manager/templatetags/my_form_helpers.py |
| job.dfy | Job | software_manager/worker.py around a run of software_manager/upgrade.py |

## Model

| member | source | states |
|---|---|---|
| Text.NatStrRoundTrip | software_manager/worker.py:31-32 | the decimal text of a count reads back as that count, so the summary's numbers identify the counts |
| Text.NatStr | software_manager/worker.py:31-32 | str() of a count: a non-empty string of decimal digits, a single digit exactly below 10 (read back by NatStrRoundTrip) |
| Text.IntStr | software_manager/upgrade.py:121-151 | str() of a port is never empty and starts with "-" exactly when the number is negative |
| Text.UpperAt | software_manager/upgrade.py:220 | str.upper() keeps the length and maps every character on its own |
| Text.LowerAt | software_manager/upgrade.py:220 | str.lower() keeps the length and maps every character on its own |
| Text.Upper | software_manager/upgrade.py:220 | str.upper() keeps the length; each character is mapped by itself (UpperAt) |
| Text.Lower | software_manager/upgrade.py:220 | str.lower() keeps the length; each character is mapped by itself (LowerAt) |
| Text.LastN | software_manager/upgrade.py:310 | s[-200:] is the last 200 characters, or all of s when it is shorter |
| Text.StripLeftIsSuffix | software_manager/upgrade.py:227 | lstrip leaves a suffix, removes only the stripped character and leaves none of it in front |
| Text.StripRightIsPrefix | software_manager/upgrade.py:227 | rstrip leaves a prefix, removes only the stripped character and leaves none of it at the end |
| Text.StripIsSlice | software_manager/upgrade.py:227 | strip('/') of the file system is a slice of it with only '/' cut from each end |
| Text.Strip | software_manager/upgrade.py:227 | strip(c) as rstrip after lstrip; what it keeps and cuts is stated by StripIsSlice |
| Text.Contains | software_manager/upgrade.py:319 | re.search of a literal marker: the marker occurs at some position of the text |
| Text.AfterLast | software_manager/models.py:76 | rsplit("/", 1)[-1] contains no "/" and is what follows the last "/", or the whole text |
| Text.EndsWithAppended | software_manager/logger.py:38-64 | a text ends with whatever was appended to it last |
| Text.ExceptionText | software_manager/custom_exceptions.py:7-8 | the shared __str__ format of both exception classes (task_exceptions.py:7-8 is the same f-string): class name, reason and message joined by ": " |
| Text.ExceptionTextDeterminesMessage | software_manager/custom_exceptions.py:7-8 | for either class, once the class name and the reason are known the printed text determines the message |
| Choices.TaskTypeChoices | software_manager/choices.py:4-11 | two task types, listed once each with distinct values; the label is the value and the value parses back |
| Choices.TaskStatusChoices | software_manager/choices.py:14-29 | six statuses, listed once each with distinct values; the label is the value and the value parses back |
| Choices.FailReasonChoices | software_manager/choices.py:32-53 | nine fail reasons, listed once each with distinct values; the label is the value and the value parses back |
| Choices.ParseTaskType | software_manager/choices.py:4-11 | a stored value reads back only as the type with that value |
| Choices.ParseTaskStatus | software_manager/choices.py:14-29 | a stored value reads back only as the status with that value |
| Choices.ParseFailReason | software_manager/choices.py:32-53 | a stored value reads back only as the reason with that value |
| Choices.StatusValueInjective | software_manager/choices.py:14-29 | two statuses with the same stored value are the same status |
| Choices.FailReasonValueInjective | software_manager/choices.py:32-53 | two reasons with the same stored value are the same reason |
| Choices.TaskTypeValueInjective | software_manager/choices.py:4-11 | two task types with the same stored value are the same type |
| CustomExceptions.Raise | software_manager/custom_exceptions.py:2-5 | the constructor keeps reason and message as given |
| CustomExceptions.KwargsIgnored | software_manager/custom_exceptions.py:2-8 | extra keyword arguments change neither the fields nor the printed text |
| TaskExceptions.Raise | software_manager/task_exceptions.py:2-5 | the constructor keeps reason and message as given |
| TaskExceptions.KwargsIgnored | software_manager/task_exceptions.py:2-8 | extra keyword arguments change neither the fields nor the printed text |
| Outcome.OfFlow | software_manager/worker.py:53-72 | the executor's flow as the worker sees it: a raised UpgradeException is a signal with its reason and message, a crash an untyped error, a proceed a completion |
| Outcome.AsTaskException | software_manager/worker.py:55-65 | the re-raised TaskException carries the signal's reason and message |
| Outcome.SignalKeepsReasonAndMessage | software_manager/worker.py:53-65 | going from the executor's exception to the worker's keeps reason and message; only the class name in the text changes |
| Outcome.ClassNamesDistinguishText | software_manager/custom_exceptions.py:7-8 | an UpgradeException and a TaskException never print the same text |
| Models.SoftwareImage.constructor | software_manager/models.py:68-97 | a new image descriptor keeps its file, path, size, checksum and version; filename and computed checksum start empty |
| Models.SoftwareImage.ToString | software_manager/models.py:89-93 | with a file: the text after the last "/" of the file name (a slash-free suffix that starts right after a "/" or is the whole name); without: "{version} (no image)" |
| Models.SoftwareImage.Save | software_manager/models.py:68-82 | without a file, filename and both checksums are cleared; with one, filename becomes its base name, the computed checksum the digest, and the image then prints as its filename |
| Models.BaseName | software_manager/models.py:76 | the base name has no "/", is a suffix of the name, starts right after a "/" or at the start, and is the whole name when there is no "/" |
| Models.Device.constructor | software_manager/upgrade.py:37-55 | a device keeps its name, serial, address, type and custom fields |
| Models.ScheduledTask.constructor | software_manager/models.py:161-216 | a new record has every declared default: upload, unknown, fail-unknown, not confirmed, FTP, empty texts, no times |
| Models.ScheduledTask.ToString | software_manager/models.py:220-224 | "unknown" without a device, else "{device name}: {job id}" |
| Models.Lookup | software_manager/models.py:146-152 | a job is found exactly when its id is in the queue, with the queue's started flag |
| Models.DeleteTask | software_manager/models.py:226-234 | the record is deleted exactly when its job is not started (or is gone); the job is deleted exactly when it exists and has not started, and never without its record |
| Models.DeleteQuerySet | software_manager/models.py:140-153 | started jobs' ids are exactly the excluded ones; exactly the records whose job is not started are deleted; the queue keeps exactly the started jobs and the jobs of other records, unchanged |
| Models.DeletionGuardAgrees | software_manager/models.py:140-153 | the single-record and the bulk deletion keep a record under the same condition: its job exists and has started |
| Logger.LogLine | software_manager/logger.py:38-64 | a log line is longer than its timestamp and message together and ends with a line break |
| Logger.LogLineLayout | software_manager/logger.py:38-64 | a log line is the timestamp, " - ", the level's name (DEBUG, INFO, WARNING or ERROR), " - ", the message and a line break: each piece at its stated position |
| Logger.LogLineInjective | software_manager/logger.py:38-64 | two lines with the same timestamp are equal only for the same level and message, so each line tells which call wrote what |
| Logger.LogId | software_manager/logger.py:30-36 | "{job id} - {device name}", or "{job id} - unknown-device" without a device |
| Logger.NewlinesAppend | software_manager/logger.py:40-42 | line breaks of a concatenation add up |
| Logger.OneLinePerCall | software_manager/logger.py:38-64 | a call with a single-line message and timestamp adds exactly one line to the log |
| Logger.TaskLogger.constructor | software_manager/logger.py:30-36 | the logger is bound to its task and carries its log id |
| Logger.TaskLogger.Write | software_manager/logger.py:38-64 | only the task's log changes: one line is appended and the old log is a prefix of the new one |
| Logger.TaskLogger.Debug | software_manager/logger.py:38-43 | appends one DEBUG line |
| Logger.TaskLogger.Info | software_manager/logger.py:45-50 | appends one INFO line |
| Logger.TaskLogger.Warning | software_manager/logger.py:52-57 | appends one WARNING line |
| Logger.TaskLogger.Error | software_manager/logger.py:59-64 | appends one ERROR line |
| UpgradeRules.CheckVerdict | software_manager/upgrade.py:93-119 | check(): no golden image skips; a missing time breaks; an elapsed window skips; an upgrade at the threshold skips; each refusal with fail-check (properties in the lemmas below) |
| UpgradeRules.CheckOnlySkipsWithFailCheck | software_manager/upgrade.py:93-119 | every refusal of check() is a skip with fail-check; it never drops a task |
| UpgradeRules.MissingGoldenImageStopsFirst | software_manager/upgrade.py:94-99 | without a golden image the task is skipped whatever the window and the threshold say |
| UpgradeRules.WindowEndIsInside | software_manager/upgrade.py:101-106 | the window test is strict: starting exactly at its end passes, one second later is skipped |
| UpgradeRules.ThresholdGate | software_manager/upgrade.py:108-119 | past the first two gates, an upgrade task is skipped exactly when unconfirmed failures reach active tasks plus the threshold |
| UpgradeRules.UploadIgnoresThreshold | software_manager/upgrade.py:108-119 | an upload task's check does not depend on the counts or the threshold |
| UpgradeRules.FallbackIsBounded | software_manager/upgrade.py:121-151 | connect_cli tries the current port first and makes a second attempt, on 23, exactly when that fails and the port was not 23; a failed first attempt leaves the port at 23, and a call on 23 succeeds exactly when its one attempt opens |
| UpgradeRules.UpperIdempotent | software_manager/upgrade.py:220 | upper-casing twice is upper-casing once |
| UpgradeRules.LowerIdempotent | software_manager/upgrade.py:220 | lower-casing twice is lower-casing once |
| UpgradeRules.IdentityIgnoresCase | software_manager/upgrade.py:220-224 | changing the case of what the device reports does not change the match |
| UpgradeRules.RecordIgnoresCase | software_manager/upgrade.py:220-224 | changing the case of the record's model and serial does not change the match |
| UpgradeRules.FilesNamed | software_manager/upgrade.py:226-235 | the files found are exactly the listed files named as the target, in listing order |
| UpgradeRules.DeviceCheckVerdict | software_manager/upgrade.py:175-236 | check_device(): no session skips with fail-connect, then the identity check, then the file lookup (DeviceCheckPolicy) |
| UpgradeRules.DeviceCheckPolicy | software_manager/upgrade.py:175-236 | check_device() passes only for a connected device whose PID and SN match the record, and every refusal is a skip |
| UpgradeRules.Md5Policy | software_manager/upgrade.py:307-328 | the MD5 check passes exactly when the command succeeds and its output contains "Verified"; otherwise it skips with fail-check |
| UpgradeRules.TransferOrder | software_manager/upgrade.py:258-304 | the transfer refuses in this order: space, preparation, copy, rollback, each a skip with fail-upload |
| UpgradeRules.UploadOnlySkips | software_manager/upgrade.py:238-334 | file_upload_ftp() never drops a task and never breaks: each refusal is a skip |
| UpgradeRules.UploadVerdict | software_manager/upgrade.py:238-334 | file_upload_ftp(): no session skips with fail-connect, then the transfer unless the image is present, then the MD5 check (UploadOnlySkips, NoSpaceSkipsUpload, PresentImageSkipsTransfer) |
| UpgradeRules.NoSpaceSkipsUpload | software_manager/upgrade.py:258-271 | too little space (free below 110% of the image size) skips the upload, whatever the device would answer next |
| UpgradeRules.PresentImageSkipsTransfer | software_manager/upgrade.py:305-306 | with the image already on the device only the MD5 reply decides the upload |
| UpgradeRules.ReloadBoundary | software_manager/upgrade.py:336-460 | device_reload() only skips before the boot variable change and only fails (drops) from it on |
| UpgradeRules.ReloadVerdict | software_manager/upgrade.py:336-460 | device_reload(): a session, the boot gate, the MD5 check, then the boot variable change, save and reload (ReloadBoundary, SameVersionSkips) |
| UpgradeRules.SameVersionSkips | software_manager/upgrade.py:358-368 | a device already on the target version (ignoring case) is skipped with fail-upgrade, whatever it would answer later |
| UpgradeRules.NegatedAt | software_manager/upgrade.py:404-405 | the i-th negated line is "no " and the i-th old line |
| UpgradeRules.BootLines | software_manager/upgrade.py:400-409 | the new boot lines: every old line negated, the target line, the first old line again (BootLinesShape) |
| UpgradeRules.BootLinesShape | software_manager/upgrade.py:400-409 | the new boot lines are the negated old lines, the target line and the first old line again; n + 1 lines plus 1 when there were old lines |
| UpgradeRules.LoopProbesBounds | software_manager/upgrade.py:542-550 | the wait loop makes at most the configured number of probes, and at least one when that number is positive |
| UpgradeRules.LoopStopsAtFirstAnswer | software_manager/upgrade.py:542-550 | the loop leaves at the first probe that answers: every earlier probe was silent |
| UpgradeRules.SilentDeviceExhaustsLoop | software_manager/upgrade.py:542-550 | a device that never answers during the loop is probed exactly the configured number of times |
| UpgradeRules.LoopProbes | software_manager/upgrade.py:542-550 | the number of probes the wait loop makes: up to the configured maximum, stopping at the first answer (the three lemmas above) |
| UpgradeRules.PostCheckNeverSkips | software_manager/upgrade.py:462-512 | post_check() never skips: every refusal fails the task with fail-connect or fail-upgrade, or breaks |
| UpgradeRules.PostCheckVerdict | software_manager/upgrade.py:462-512 | post_check(): no session fails with fail-connect, missing outputs fail with fail-upgrade, then the save (PostCheckNeverSkips) |
| UpgradeRules.TransferSendsThree | software_manager/upgrade.py:272-304 | a completed transfer sent exactly the preparing configuration, the copy and the rollback |
| UpgradeRules.NoSpaceSendsNothing | software_manager/upgrade.py:258-271 | too little space: nothing is sent, neither configuration nor copy nor MD5 check |
| UpgradeRules.PresentImageOnlyChecked | software_manager/upgrade.py:305-328 | an image already on the device only gets the MD5 command |
| UpgradeRules.SameVersionSendsNoConfig | software_manager/upgrade.py:347-368 | a device on the target version gets only the show commands, no configuration |
| UpgradeRules.ReloadDropFollowsBootChange | software_manager/upgrade.py:400-455 | device_reload() fails a task only after the new boot lines were sent |
| UpgradeRules.AdmittedReachesWork | software_manager/upgrade.py:529-557 | past a passed validation the run's verdict is the work stage's |
| UpgradeRules.AdmittedSendsWork | software_manager/upgrade.py:529-557 | past a passed validation the run sends the inventory commands, then the work stage's commands |
| UpgradeRules.AdmittedWritesWork | software_manager/upgrade.py:529-557 | past a passed validation the version field write is the work stage's |
| UpgradeRules.UploadWorkNeverFails | software_manager/upgrade.py:533-535 | the upload work stage never drops a task (drop_task) |
| UpgradeRules.UploadTaskNeverFails | software_manager/upgrade.py:514-559 | an upload task ends passed, skipped or broken, never dropped |
| UpgradeRules.UploadTaskWritesNoField | software_manager/upgrade.py:514-559 | an upload task never writes the version custom field |
| UpgradeRules.RefusedAdmissionSendsNothing | software_manager/upgrade.py:514-527 | a refused admission ends the run with check()'s refusal, or, after a passed check, with the not-reachable skip of a device silent on both ports; nothing is sent and no field is written |
| UpgradeRules.UpgradeWorkSendsReloadFirst | software_manager/upgrade.py:536-557 | an upgrade's work sends device_reload()'s commands first |
| UpgradeRules.UpgradeWorkDropNeedsReload | software_manager/upgrade.py:536-557 | an upgrade's work fails only where device_reload() fails, or after it passed |
| UpgradeRules.UpgradeWorkFailsAfterBootChange | software_manager/upgrade.py:536-557 | a dropped upgrade work stage sent the new boot lines before it dropped |
| UpgradeRules.AdmissionNeverFails | software_manager/upgrade.py:514-527 | admission never drops a task: a refusal is a skip for a failed check or an unreachable device |
| UpgradeRules.AdmittedDropIsWorkDrop | software_manager/upgrade.py:529-557 | validation never drops a task, so a dropped admitted run was dropped in its work stage |
| UpgradeRules.AdmittedFailureFollowsBootChange | software_manager/upgrade.py:529-557 | after admission a task is dropped only in an upgrade whose new boot lines were sent |
| UpgradeRules.WorkFailsAfterBootChange | software_manager/upgrade.py:533-557 | a dropped work stage is an upgrade's, after its new boot lines were sent |
| UpgradeRules.FailureFollowsBootChange | software_manager/upgrade.py:514-559 | the executor drops a task (drop_task, which stores it failed) only if it is an upgrade task and its new boot lines were sent to the device; an untyped error is failed by the worker instead |
| UpgradeRules.RunVerdict | software_manager/upgrade.py:514-559 | execute_task()'s verdict: admission, validation, then the work of the task's type (FailureFollowsBootChange, UploadTaskNeverFails, RefusedAdmissionSendsNothing) |
| UpgradeRules.RunSent | software_manager/upgrade.py:514-559 | everything one run sends to the device, in order, up to the step that refuses (RefusedAdmissionSendsNothing, AdmittedSendsWork) |
| UpgradeRules.RunFieldWrite | software_manager/upgrade.py:514-559 | the version custom field value one run writes, if any: the current version on a version match, the new one after a saved post-check (UploadTaskWritesNoField) |
| Executor.FactsOf | software_manager/upgrade.py:37-55 | what a run reads of the record: the device's name, serial, model and address, whether a golden image exists, and the target file exactly when an image with a file is bound |
| Executor.BuildBootLines | software_manager/upgrade.py:400-409 | the boot line loop builds exactly the boot lines BootLinesShape describes |
| Executor.UpgradeDevice.constructor | software_manager/upgrade.py:37-49 | SSH over paramiko on port 22, no host yet, nothing sent or probed |
| Executor.UpgradeDevice.ActionTask | software_manager/upgrade.py:77-85 | the record gets the status, message and reason, and an UpgradeException with the reason's value and the message is raised |
| Executor.UpgradeDevice.SkipTask | software_manager/upgrade.py:87-88 | the record is skipped with the message and reason, and the exception raised |
| Executor.UpgradeDevice.DropTask | software_manager/upgrade.py:90-91 | the record is failed with the message and reason, and the exception raised |
| Executor.UpgradeDevice.Refuse | software_manager/upgrade.py:57-91 | a warning or error line with the message, then the skip |
| Executor.UpgradeDevice.Fail | software_manager/upgrade.py:72-91 | an error line with the message, then the drop |
| Executor.UpgradeDevice.Setup | software_manager/upgrade.py:37-55 | __init__: no device breaks, no address skips with fail-check, else the host is the address |
| Executor.UpgradeDevice.Check | software_manager/upgrade.py:93-119 | check() ends as CheckVerdict: golden image, window, then (upgrades only) threshold |
| Executor.UpgradeDevice.Open | software_manager/upgrade.py:121-151 | one attempt on the current port, answered by the next open answer |
| Executor.UpgradeDevice.ConnectCli | software_manager/upgrade.py:121-151 | a session exactly when ConnectSucceeds, and the port and transport switch to telnet/23 only after a failed first attempt |
| Executor.UpgradeDevice.IsAlive | software_manager/upgrade.py:153-173 | true exactly when the next probe answers on 22 or 23; port 23 is probed only when 22 was silent, and both results are logged |
| Executor.UpgradeDevice.Identify | software_manager/upgrade.py:189-224 | the inventory commands are sent and the step ends as IdentityVerdict |
| Executor.UpgradeDevice.CompareIdentity | software_manager/upgrade.py:220-224 | passes exactly when IdentityMatches, else skips with fail-config |
| Executor.UpgradeDevice.LocateImage | software_manager/upgrade.py:226-235 | ends as LocateVerdict, and on a pass the file system, target, path and files found are those of the listing and the golden image |
| Executor.UpgradeDevice.ReportLocation | software_manager/upgrade.py:231-234 | the log only grows |
| Executor.UpgradeDevice.CheckDevice | software_manager/upgrade.py:175-236 | ends as DeviceCheckVerdict, sends the inventory commands only with a session, and leaves the located state on a pass |
| Executor.UpgradeDevice.VerifyMd5 | software_manager/upgrade.py:307-328 | sends the MD5 command for the target and ends as Md5Verdict |
| Executor.UpgradeDevice.JudgeMd5 | software_manager/upgrade.py:317-328 | ends as Md5Verdict of the reply |
| Executor.UpgradeDevice.PrepareCopy | software_manager/upgrade.py:258-282 | ends as PrepareVerdict; the preparing configuration is sent only when there is space |
| Executor.UpgradeDevice.CopyImage | software_manager/upgrade.py:283-304 | ends as CopyVerdict; sends the copy, and the rollback unless the copy failed |
| Executor.UpgradeDevice.Transfer | software_manager/upgrade.py:258-304 | ends as TransferVerdict and sends exactly TransferSent |
| Executor.UpgradeDevice.UploadSession | software_manager/upgrade.py:258-334 | ends as UploadVerdict with a session: the transfer unless the image is present, then the MD5 check |
| Executor.UpgradeDevice.FileUploadFtp | software_manager/upgrade.py:238-334 | file_upload_ftp() ends as UploadVerdict, sends exactly UploadSent and reconnects as connect_cli does |
| Executor.UpgradeDevice.WriteMemory | software_manager/upgrade.py:419-442 | ends as WriteVerdict and sends "write memory", and the interactive form when the session was reopened |
| Executor.UpgradeDevice.KeepVersion | software_manager/upgrade.py:358-368 | the version custom field is set to the current version and the task is skipped with fail-upgrade |
| Executor.UpgradeDevice.ReadBoot | software_manager/upgrade.py:347-374 | sends the show commands, ends as BootGateVerdict and writes the field only for a device on the target version |
| Executor.UpgradeDevice.PrepareBootLines | software_manager/upgrade.py:400-409 | the new boot lines are BootLines of the old ones |
| Executor.UpgradeDevice.SetBootVar | software_manager/upgrade.py:410-417 | sends the new boot lines; a failed change fails the task with fail-upgrade |
| Executor.UpgradeDevice.RequestReload | software_manager/upgrade.py:444-455 | sends the reload dialog and ends as ReloadRequestVerdict: a timeout fails the task, a closed connection breaks |
| Executor.UpgradeDevice.ChangeBoot | software_manager/upgrade.py:400-455 | ends as ChangeVerdict and sends exactly ChangeSent |
| Executor.UpgradeDevice.ReloadSession | software_manager/upgrade.py:347-455 | ends as ReloadVerdict with a session, sends ReloadSent and writes ReloadFieldWrite |
| Executor.UpgradeDevice.DeviceReload | software_manager/upgrade.py:336-460 | device_reload() ends as ReloadVerdict, sends ReloadSent, writes ReloadFieldWrite and reconnects as connect_cli does |
| Executor.UpgradeDevice.TryAfterReload | software_manager/upgrade.py:543-549 | one probe of the wait loop: true exactly when the next probe answers |
| Executor.UpgradeDevice.AwaitReload | software_manager/upgrade.py:542-551 | the loop makes LoopProbes probes and the device counts as online exactly when the probe after the loop answers |
| Executor.UpgradeDevice.PostSession | software_manager/upgrade.py:472-511 | ends as PostCheckVerdict with a session, sends PostSent and writes the new version once saved |
| Executor.UpgradeDevice.PostCheck | software_manager/upgrade.py:462-512 | post_check() ends as PostCheckVerdict, sends PostSent, writes PostFieldWrite and reconnects as connect_cli does |
| Executor.UpgradeDevice.AfterReload | software_manager/upgrade.py:542-557 | ends as AfterReloadVerdict: lost after the loop fails with fail-upgrade, else the post-check; sends and writes what those say |
| Executor.UpgradeDevice.UpgradeWork | software_manager/upgrade.py:536-557 | the upgrade branch ends as UpgradeVerdict: the reload, then the wait and the post-check |
| Executor.UpgradeDevice.Work | software_manager/upgrade.py:533-557 | the branch for the task type ends as WorkVerdict |
| Executor.UpgradeDevice.Admit | software_manager/upgrade.py:515-527 | check() then one probe; a silent device is skipped with fail-connect |
| Executor.UpgradeDevice.Validate | software_manager/upgrade.py:529-531 | check_device() between its two log lines |
| Executor.UpgradeDevice.Admitted | software_manager/upgrade.py:529-557 | after admission: the validation, then the work, ending as AdmittedVerdict |
| Executor.UpgradeDevice.ExecuteTask | software_manager/upgrade.py:514-559 | execute_task() ends as RunVerdict, sends exactly RunSent and writes exactly RunFieldWrite |
| Worker.Rank | software_manager/worker.py:23-28 | every status has its place in the order of stored values |
| Worker.RankOfOrder | software_manager/worker.py:23-28 | the place of the k-th status in that order is k |
| Worker.StatusOrderAscending | software_manager/worker.py:26 | the statuses are listed in strictly ascending order of their stored values |
| Worker.RankFollowsValues | software_manager/worker.py:26 | a lower place means a lexicographically smaller stored value |
| Worker.Stats | software_manager/worker.py:23-28 | the status aggregate over the tasks' statuses: one row per occurring status with its count, ordered by stored value (StatsShape, StatsAddUp) |
| Worker.RowsAreCounts | software_manager/worker.py:23-28 | every aggregate row counts its status among the tasks, with a count above zero |
| Worker.RowsAscending | software_manager/worker.py:26 | the aggregate rows are in ascending order of status |
| Worker.RowsComplete | software_manager/worker.py:23-28 | every status that occurs has a row |
| Worker.StatsShape | software_manager/worker.py:23-28 | one row exactly for each occurring status, with its count, in ascending order |
| Worker.RowsTotal | software_manager/worker.py:21-28 | the counts of the rows add up to the tasks counted |
| Worker.StatsAddUp | software_manager/worker.py:21-28 | the aggregate's counts add up to the total the summary starts with |
| Worker.SegmentsAppend | software_manager/worker.py:29-31 | the summary parts of two row lists are the parts of each, in order |
| Worker.Segments | software_manager/worker.py:29-31 | the " / {status} {count}" parts of the rows, in row order (SegmentsAppend, PartInSummary) |
| Worker.SummaryText | software_manager/worker.py:29-32 | "total {total}" and then the parts (built by BuildSummary, read by SummaryReportsEachStatus) |
| Worker.PartNamesStatus | software_manager/worker.py:31 | two rows whose parts read alike have the same status: a part names its status |
| Worker.PartInSummary | software_manager/worker.py:29-32 | the part of each row occurs in the summary text, right after the total and the parts of the rows before it |
| Worker.SummaryReportsEachStatus | software_manager/worker.py:21-32 | the summary contains " / {status} {count}" for every status some task has, and a part names a status only if some task has it |
| Worker.BuildSummary | software_manager/worker.py:29-32 | the summary loop builds exactly SummaryText |
| Worker.QueueMessage | software_manager/worker.py:35-41 | the three closing lines, each exactly when its queue condition holds |
| Worker.SummaryLines | software_manager/worker.py:33-41 | the three INFO lines add_summary logs: the final status, the summary and the queue line (appended by AddSummary) |
| Worker.AddSummary | software_manager/worker.py:19-41 | add_summary appends exactly the status, summary and queue lines, and changes only the log |
| Worker.Finish | software_manager/worker.py:53-80 | the job returns exactly for a skipped signal or a completed run with a device; otherwise it re-raises; status, message and confirmation are set per branch |
| Worker.FailedTaskWasFailed | software_manager/worker.py:53-72 | a finalised failed task came from an untyped error or from a typed signal after the executor failed it, and the job raises |
| Worker.ReturnedMeansConfirmed | software_manager/worker.py:55-80 | a job that returns left its task confirmed, skipped or succeeded |
| Worker.SignalKeepsItsWords | software_manager/worker.py:55-65 | a re-raised TaskException carries the reason and message of the executor's UpgradeException |
| Worker.Start | software_manager/worker.py:48-50 | start time is now and the status is running |
| Worker.Conclude | software_manager/worker.py:53-80 | the record's status, message and confirmation and the job's result are Finish's, and the end time is now |
| Worker.Finalise | software_manager/worker.py:53-80 | as Conclude, and the log grows by exactly the summary lines for the final status among the tasks of the same scheduled time |
| Worker.OwnStatusInSummary | software_manager/worker.py:19-41 | the task's own final status has a row in the summary it logs |
| Job.StatusAfterRun | software_manager/upgrade.py:77-91 | the status a run leaves on a running record: skip_task's skipped, drop_task's failed, otherwise still running (tied to the executor by SettledStatus) |
| Job.SettledStatus | software_manager/upgrade.py:77-91 | an executor settled on a verdict from a running record holds exactly StatusAfterRun of it |
| Job.JobEnd | software_manager/worker.py:53-80 | the worker's final record over the outcome and status a run leaves |
| Job.FailedJobFollowsErrorOrBootChange | software_manager/worker.py:53-72 | a job ends with its task failed only after an untyped error or an upgrade that sent its new boot lines, and every untyped error ends failed with "Unknown Error" |
| Job.SkippedRunReturns | software_manager/worker.py:55-61 | a skipped run ends the job with "Task was skipped. {reason}: {message}" and the task skipped |
| FormHelpers.ProgressGraph | software_manager/templatetags/my_form_helpers.py:4-10 | the context passes utilisation and thresholds through, both thresholds 101 by default |
| FormHelpers.DefaultThresholdsAboveFull | software_manager/templatetags/my_form_helpers.py:4-10 | with the default thresholds no utilisation up to 100 reaches either |
| FormHelpers.MyRenderField | software_manager/templatetags/my_form_helpers.py:13-20 | an empty or missing label falls back to the field's label, an empty or missing label text to "Set Null" |
| FormHelpers.RenderFieldSettles | software_manager/templatetags/my_form_helpers.py:13-20 | the label text is never empty, and rendering again with what was rendered gives the same context |
| FormHelpers.GetCurrentVersion | software_manager/templatetags/my_form_helpers.py:23-25 | a version exactly when "sw_version" is set, and then its value |
| FormHelpers.CurrentVersionAfterWrite | software_manager/templatetags/my_form_helpers.py:23-25 | after writing "sw_version" the filter shows the written value; writing another field does not change it |
| FormHelpers.CutJobId | software_manager/templatetags/my_form_helpers.py:28-35 | an id longer than 10 becomes its first four characters, "..." and its last four; anything else is returned unchanged |
| FormHelpers.CutJobIdIdempotent | software_manager/templatetags/my_form_helpers.py:28-35 | a shown id has at most 11 characters and cutting it again changes nothing |

## Left out

- The device, the FTP server and the queue are not run: their replies are given as `DeviceReplies` and the queue's counters as values. Scrapli, paramiko and telnet sessions, timeouts and `time.sleep` (the 240-second hold, the pauses in the wait loop) are not modelled.
- TextFSM parsing and the regular expressions over device output: the parsed PID, SN, version and file listing come from the replies, and so do the boot lines that upgrade.py:402 splits from the `show run | i boot system` output; only the literal "Verified", "OK" and "[OK]" tests are modelled, as `Contains`.
- The process-wide log file (`log.debug` … in logger.py:38-64) and its handler: only the task's own log is modelled. Each run has one timestamp text, given as a parameter.
- `int(int(size) * 1.1)` in file_upload_ftp is floating point; the model takes the exact floor of 11 · size / 10, which can differ from the float result for very large sizes.
- `str.upper()`/`str.lower()` are modelled for ASCII letters only; other characters are kept.
- Database queries: the aggregate in add_summary is computed from the statuses of the tasks with the same scheduled time, given as a sequence, with ordering by the stored value's character codes (the database's collation is taken to agree for these ASCII values). `save()` calls are not modelled; the objects are the stored state.
- The task lookup (worker.py:43-46) re-raises without changing anything and is not modelled; the worker starts from the loaded record.
- The executor the worker constructs comes from task_executor, which is not part of this model. The worker takes its outcome as an `ExecOutcome`. An exception raised while constructing it (worker.py:52, outside the try) is not modelled.
- Worker.Finalise: the source sets the fields and calls add_summary inside each branch before it returns or raises; the model computes the result first and appends the summary afterwards, which yields the same record and log.
- Keyword arguments of the exception constructors are ignored, as the source ignores them for the fields and the text; the `args` tuple they build is not modelled.
- The closing of CLI sessions and any error it raises; the error raised when a second `cli.open()` after a timeout itself fails is taken as the reply's `reopened` flag.
- `SoftwareImage.delete` (models.py:84-87) unlinks the image file; the file system is not modelled.
- `GoldenImage.__str__` (models.py:123-124) and `get_progress` (models.py:129-137, a rounded float over a device query) are not modelled.
- Views, forms, tables, filters, the API and the migrations are outside this model.
- Outcome.OfFlow, Outcome.SignalKeepsReasonAndMessage, Worker.SignalKeepsItsWords and the Job lemmas take the executor's raised `UpgradeException` to reach the worker as a `TaskException` with the same reason and message. The worker runs `task_executor.TaskExecutor`, which is not part of this model, and catches `TaskException`; the two exception classes each derive only from `Exception`, so an `UpgradeException` raised by upgrade.py itself would fall to the untyped branch (worker.py:66-72) and end the task failed with "Unknown Error".
- Models.ScheduledTask.ToString: prints the device as its name; NetBox's `Device.__str__` (models.py:224 formats the device with it) is not part of this model and can print other text, for a device without a name.
- Executor.UpgradeDevice.ReportLocation: states only that the log grows, not its four debug lines.
- Executor.UpgradeDevice.Identify: like every executor step, states the log only through its last report line (`Settled`), not the debug and info lines before it.
- Executor.UpgradeDevice.AfterReload: does not state the port, attempt and probe cursors after the wait and the post-check; the verdict, what is sent and the field write are stated.
- Executor.UpgradeDevice.UpgradeWork: does not state the session cursors and the probes afterwards.
- Executor.UpgradeDevice.Work: does not state the session cursors and the probes afterwards.
- Executor.UpgradeDevice.Admitted: does not state the session cursors, the probes or the located fields afterwards.
- Executor.UpgradeDevice.ExecuteTask: does not state the session cursors, the probes or the located fields afterwards.
