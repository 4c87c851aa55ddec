// UpgradeDevice: the per-task executor. It changes the task record, the
// device's custom fields and its own session state step by step, so it is a
// class; every step is proved to end as the matching function of
// UpgradeRules says, and the whole run as RunVerdict / RunSent /
// RunFieldWrite say. A raised exception is the returned Flow.

module Executor {
  import opened Wrappers
  import opened Text
  import opened Choices
  import CustomExceptions
  import opened Outcome
  import opened Models
  import opened Logger
  import opened DeviceOracle
  import opened UpgradeRules

  /** A step's verdict as the executor's control flow: a skip or a drop raises
      UpgradeException with the reason's value and the message. */
  function FlowOf(v: Verdict): Flow {
    match v
    case Pass => Proceed
    case Skip(reason, msg) => Raise(CustomExceptions.UpgradeException(reason.Value(), msg))
    case Drop(reason, msg) => Raise(CustomExceptions.UpgradeException(reason.Value(), msg))
    case Broken => Crash
  }

  /** What the run reads of a software image; None when no image is bound. */
  function ImageFactsOf(sw: SoftwareImage?): Option<ImageFacts>
    reads sw
  {
    if sw == null then None
    else Some(ImageFacts(sw.ImageExists(), sw.filename, sw.imagePath, sw.imageSize, sw.md5sum, sw.version))
  }

  /** The software image bound to the golden image of the device's type, if any. */
  function SwOf(d: Device?): SoftwareImage? {
    if d != null && d.deviceType.goldenImage.Some? then d.deviceType.goldenImage.value.sw else null
  }

  /** What a run reads of the record, its device and the golden image. Nothing
      the run does changes any of it, so the executor takes it once when it is
      built; a record without a device yields empty texts. */
  function FactsOf(task: ScheduledTask): (f: TaskFacts)
    reads task, SwOf(task.device)
    ensures task.device != null ==> f.name == task.device.name && f.serial == task.device.serial
    ensures task.device != null ==> f.model == task.device.deviceType.model
    ensures task.device != null ==> (f.golden <==> task.device.deviceType.goldenImage.Some?)
    ensures task.device != null && task.device.primaryIp.Some? ==> f.ip == task.device.primaryIp.value
    ensures f.image.Some? <==> SwOf(task.device) != null
    ensures TargetOf(f).Some? <==> SwOf(task.device) != null && SwOf(task.device).ImageExists()
    ensures TargetOf(f).Some? ==> TargetOf(f).value == SwOf(task.device).filename
  {
    var d := task.device;
    TaskFacts(task.jobId, task.taskType, task.startTime, task.scheduledTime, task.mwDuration,
              if d != null then d.name else "", if d != null then d.serial else "",
              if d != null && d.primaryIp.Some? then d.primaryIp.value else "",
              if d != null then d.deviceType.model else "",
              d != null && d.deviceType.goldenImage.Some?, ImageFactsOf(SwOf(d)))
  }

  /** How a software image prints in a log line; an unset one prints as None. */
  function SwText(sw: SoftwareImage?): string
    reads sw
  {
    if sw == null then "None" else sw.ToString()
  }

  /** A list of strings as Python prints it (without escaping). */
  function ReprList(xs: seq<string>): string {
    "[" + Join(", ", QuotedAll(xs)) + "]"
  }

  function QuotedAll(xs: seq<string>): seq<string> {
    if xs == [] then [] else QuotedAll(xs[..|xs| - 1]) + ["'" + xs[|xs| - 1] + "'"]
  }

  function Names(files: seq<FileEntry>): seq<string> {
    if files == [] then [] else Names(files[..|files| - 1]) + [files[|files| - 1].name]
  }

  /** The two lines is_alive() logs for a probe: TCP/22, and TCP/23 only when TCP/22 did not answer. */
  function ProbeLog(stamp: string, p: Probe): string {
    if p.tcp22 then LogLine(stamp, Level.Debug, "got response on TCP/22")
    else LogLine(stamp, Level.Debug, "no response on TCP/22")
         + LogLine(stamp, Level.Debug, if p.tcp23 then "got response on TCP/23" else "no response on TCP/23")
  }

  /** The boot line loop of device_reload(), proved against BootLines. */
  method BuildBootLines(oldLines: seq<string>, fileSystem: string, image: string) returns (newLines: seq<string>)
    ensures newLines == BootLines(oldLines, fileSystem, image)
  {
    newLines := [];
    for i := 0 to |oldLines|
      invariant newLines == Negated(oldLines[..i])
    {
      assert oldLines[..i + 1][..i] == oldLines[..i];
      newLines := newLines + ["no " + oldLines[i]];
    }
    assert oldLines[..|oldLines|] == oldLines;
    newLines := newLines + ["boot system " + fileSystem + "/" + image];
    if |oldLines| > 0 {
      newLines := newLines + [oldLines[0]];
    }
  }

  class UpgradeDevice {
    const task: ScheduledTask
    const device: Device?
    const facts: TaskFacts
    const settings: Settings
    const replies: DeviceReplies
    const counts: QueueCounts
    const stamp: string

    /** The session parameters of self.device. */
    var host: string
    var port: int
    var transport: Transport
    /** The port of every open attempt so far; its length is the cursor into the open answers. */
    var attempts: seq<int>
    /** The number of is_alive() calls so far: the cursor into the probe answers. */
    var probesUsed: nat
    /** The ports probed so far, in order. */
    var probed: seq<int>
    /** Everything sent to the device so far, in order. */
    var sent: seq<Sent>
    var files: seq<FileEntry>
    var fileSystem: string
    var targetImage: string
    var targetPath: string
    var imageOnDevice: seq<FileEntry>

    /** The part of __init__ that cannot raise: SSH on port 22, no host yet. */
    constructor (task: ScheduledTask, settings: Settings, replies: DeviceReplies, counts: QueueCounts, stamp: string)
      ensures this.task == task && device == task.device && facts == FactsOf(task) && this.settings == settings
      ensures this.replies == replies && this.counts == counts && this.stamp == stamp
      ensures host == "" && port == 22 && transport == Paramiko
      ensures attempts == [] && probesUsed == 0 && probed == [] && sent == []
      ensures files == [] && fileSystem == "" && targetImage == "" && targetPath == "" && imageOnDevice == []
    {
      this.task := task;
      device := task.device;
      facts := FactsOf(task);
      this.settings := settings;
      this.replies := replies;
      this.counts := counts;
      this.stamp := stamp;
      host := "";
      port := 22;
      transport := Paramiko;
      attempts := [];
      probesUsed := 0;
      probed := [];
      sent := [];
      files := [];
      fileSystem := "";
      targetImage := "";
      targetPath := "";
      imageOnDevice := [];
    }

    /** The task has a device with a management address. */
    predicate Ready() {
      device != null && device.primaryIp.Some?
    }

    /** __init__'s tail: a missing device breaks it, a missing address skips the task. */
    function SetupVerdict(): Verdict {
      if device == null then Broken
      else if device.primaryIp.None? then Skip(FailCheck, "No primary (mgmt) address")
      else Pass
    }

    /** The last log lines report msg as a warning or an error (the same-version
        skip logs "Update custom field" after its warning). */
    predicate Reported(msg: string)
      reads task`log
    {
      || EndsWith(task.log, LogLine(stamp, Level.Warning, msg))
      || EndsWith(task.log, LogLine(stamp, Level.Error, msg))
      || EndsWith(task.log, LogLine(stamp, Level.Warning, msg) + LogLine(stamp, Level.Info, "Update custom field"))
    }

    /** The record after a step with verdict v: a skip or drop is stored with its
        message and reason and was reported in the log; otherwise status,
        message and reason are unchanged. */
    predicate Settled(v: Verdict, status0: TaskStatus, message0: string, reason0: FailReason)
      reads task`status, task`message, task`failReason, task`log
    {
      match v
      case Skip(reason, msg) => task.status == Skipped && task.message == msg && task.failReason == reason && Reported(msg)
      case Drop(reason, msg) => task.status == Failed && task.message == msg && task.failReason == reason && Reported(msg)
      case _ => task.status == status0 && task.message == message0 && task.failReason == reason0
    }

    /** The session state after one connect_cli() call that started from (port0, transport0, attempts0). */
    predicate Reconnected(port0: int, transport0: Transport, attempts0: seq<int>)
      reads this`port, this`transport, this`attempts
    {
      && attempts == attempts0 + ConnectPorts(replies, port0, |attempts0|)
      && port == PortAfterConnect(replies, port0, |attempts0|)
      && transport == (if OpenAt(replies, |attempts0|).Opened? || port0 == 23 then transport0 else Telnet)
    }

    /** What the steps after check_device() need: a device, a listing with a
        first row, and a bound software image. */
    predicate Validated()
      reads this`files
    {
      Ready() && files != [] && facts.image.Some?
    }

    /** The fields check_device() sets, as the device's listing and the golden image determine them. */
    predicate Located()
      reads this`files, this`fileSystem, this`targetImage, this`targetPath, this`imageOnDevice
    {
      && files == replies.inventory.files
      && files != []
      && fileSystem == Strip(files[0].fileSystem, '/')
      && TargetOf(facts) == Some(targetImage)
      && targetPath == facts.image.value.path
      && imageOnDevice == FilesNamed(files, targetImage)
    }

    /** The custom fields after a possible write of the version field. */
    function Written(fields: map<string, string>, w: Option<string>): map<string, string> {
      if w.Some? then fields[settings.cfNameSwVersion := w.value] else fields
    }

    /** action_task: stores status, message and reason, then raises with the same reason and message. */
    method ActionTask(action: TaskStatus, msg: string, reason: FailReason) returns (flow: Flow)
      modifies task`status, task`message, task`failReason
      ensures task.status == action && task.message == msg && task.failReason == reason
      ensures flow == Raise(CustomExceptions.UpgradeException(reason.Value(), msg))
    {
      task.status := action;
      task.message := msg;
      task.failReason := reason;
      flow := Raise(CustomExceptions.UpgradeException(reason.Value(), msg));
    }

    method SkipTask(msg: string, reason: FailReason) returns (flow: Flow)
      modifies task`status, task`message, task`failReason
      ensures task.status == Skipped && task.message == msg && task.failReason == reason
      ensures flow == FlowOf(Skip(reason, msg))
    {
      flow := ActionTask(Skipped, msg, reason);
    }

    method DropTask(msg: string, reason: FailReason) returns (flow: Flow)
      modifies task`status, task`message, task`failReason
      ensures task.status == Failed && task.message == msg && task.failReason == reason
      ensures flow == FlowOf(Drop(reason, msg))
    {
      flow := ActionTask(Failed, msg, reason);
    }

    /** Warns or errs with msg, then skips the task with it. */
    method Refuse(level: Level, msg: string, reason: FailReason) returns (flow: Flow)
      requires level == Level.Warning || level == Level.Error
      modifies task`status, task`message, task`failReason, task`log
      ensures flow == FlowOf(Skip(reason, msg))
      ensures Settled(Skip(reason, msg), old(task.status), old(task.message), old(task.failReason))
    {
      task.log := task.log + LogLine(stamp, level, msg);
      EndsWithAppended(old(task.log), LogLine(stamp, level, msg));
      flow := SkipTask(msg, reason);
    }

    /** Errs with msg, then fails the task with it. */
    method Fail(msg: string, reason: FailReason) returns (flow: Flow)
      modifies task`status, task`message, task`failReason, task`log
      ensures flow == FlowOf(Drop(reason, msg))
      ensures Settled(Drop(reason, msg), old(task.status), old(task.message), old(task.failReason))
    {
      task.log := task.log + LogLine(stamp, Level.Error, msg);
      EndsWithAppended(old(task.log), LogLine(stamp, Level.Error, msg));
      flow := DropTask(msg, reason);
    }

    /** The raising tail of __init__: the log id needs the device, the session needs its address. */
    method Setup() returns (flow: Flow)
      modifies this`host, task`status, task`message, task`failReason, task`log
      ensures flow == FlowOf(SetupVerdict())
      ensures Settled(SetupVerdict(), old(task.status), old(task.message), old(task.failReason))
      ensures flow.Proceed? ==> Ready() && host == device.primaryIp.value
    {
      if device == null {
        flow := Crash;
        return;
      }
      if device.primaryIp.None? {
        flow := Refuse(Level.Warning, "No primary (mgmt) address", FailCheck);
        return;
      }
      host := device.primaryIp.value;
      flow := Proceed;
    }

    /** check(): the golden image, maintenance window and failure threshold gates. */
    method Check() returns (flow: Flow)
      modifies task`status, task`message, task`failReason, task`log
      ensures var v := CheckVerdict(facts.model, facts.golden, facts.start, facts.scheduled, facts.mw, facts.taskType,
                                    counts, settings.threshold);
        flow == FlowOf(v) && Settled(v, old(task.status), old(task.message), old(task.failReason))
    {
      if !facts.golden {
        flow := Refuse(Level.Warning, "No Golden Image for " + facts.model, FailCheck);
        return;
      }
      task.log := task.log + LogLine(stamp, Level.Debug, "Golden Image for " + facts.model + " is " + SwText(SwOf(device)));
      if facts.start.None? || facts.scheduled.None? || facts.mw.None? {
        flow := Crash;
        return;
      }
      if WindowOver(facts.start.value, facts.scheduled.value, facts.mw.value) {
        flow := Refuse(Level.Warning, "Maintenance Window is over", FailCheck);
        return;
      }
      task.log := task.log + LogLine(stamp, Level.Debug, "MW is still active");
      if facts.taskType == Upgrade {
        var details := ThresholdDetails(counts, settings.threshold);
        if ThresholdReached(counts.unconfirmed, counts.active, settings.threshold) {
          flow := Refuse(Level.Warning, "Reached failure threshold: " + details, FailCheck);
          return;
        }
        task.log := task.log + LogLine(stamp, Level.Debug, details);
      } else {
        task.log := task.log + LogLine(stamp, Level.Debug, "Task type is " + facts.taskType.Value() + ", check against threshold was skipped");
      }
      flow := Proceed;
    }

    /** One IOSXEDriver.open() on the current port, with the debug lines it logs. */
    method Open() returns (answer: OpenResult)
      modifies this`attempts, task`log
      ensures answer == OpenAt(replies, |old(attempts)|)
      ensures attempts == old(attempts) + [port]
    {
      task.log := task.log + LogLine(stamp, Level.Debug, "Trying to connect via TCP/" + IntStr(port) + " ...");
      answer := OpenAt(replies, |attempts|);
      attempts := attempts + [port];
      if answer.Opened? {
        task.log := task.log + LogLine(stamp, Level.Debug, "Login successful while connecting to the device via TCP/" + IntStr(port));
      } else if answer.AuthFailed? {
        task.log := task.log + LogLine(stamp, Level.Debug, "Incorrect username while connecting to the device via TCP/" + IntStr(port));
      } else if answer.ConnectionClosed? {
        task.log := task.log + LogLine(stamp, Level.Debug, "Device closed connection on TCP/" + IntStr(port));
      } else {
        task.log := task.log + LogLine(stamp, Level.Debug, "Unknown error while connecting to the device via TCP/" + IntStr(port));
      }
    }

    /** connect_cli(): one open attempt, and on any error one more on port 23
        over telnet unless the port already is 23; the switch persists. */
    method ConnectCli() returns (connected: bool)
      modifies this`port, this`transport, this`attempts, task`log
      ensures connected == ConnectSucceeds(replies, old(port), |old(attempts)|)
      ensures Reconnected(old(port), old(transport), old(attempts))
      decreases if port == 23 then 0 else 1
    {
      var answer := Open();
      if answer.Opened? {
        return true;
      }
      connected := false;
      if port != 23 {
        task.log := task.log + LogLine(stamp, Level.Debug, "Swiching to telnet");
        port := 23;
        transport := Telnet;
        connected := ConnectCli();
      }
    }

    /** is_alive(): TCP/22, then TCP/23 only when TCP/22 does not answer. */
    method IsAlive() returns (alive: bool)
      modifies this`probesUsed, this`probed, task`log
      ensures alive == Alive(ProbeAt(replies, old(probesUsed)))
      ensures probesUsed == old(probesUsed) + 1
      ensures probed == old(probed) + (if ProbeAt(replies, old(probesUsed)).tcp22 then [22] else [22, 23])
      ensures task.log == old(task.log) + ProbeLog(stamp, ProbeAt(replies, old(probesUsed)))
    {
      var p := ProbeAt(replies, probesUsed);
      probesUsed := probesUsed + 1;
      probed := probed + [22];
      if p.tcp22 {
        task.log := task.log + LogLine(stamp, Level.Debug, "got response on TCP/22");
        return true;
      }
      task.log := task.log + LogLine(stamp, Level.Debug, "no response on TCP/22");
      probed := probed + [23];
      if p.tcp23 {
        task.log := task.log + LogLine(stamp, Level.Debug, "got response on TCP/23");
        return true;
      }
      task.log := task.log + LogLine(stamp, Level.Debug, "no response on TCP/23");
      return false;
    }

    /** The inventory part of check_device(): the outputs, the PID, the SN and their match with the record. */
    method Identify() returns (flow: Flow)
      modifies this`sent, task`status, task`message, task`failReason, task`log
      ensures var v := IdentityVerdict(replies.inventory, facts.model, facts.serial);
        flow == FlowOf(v) && Settled(v, old(task.status), old(task.message), old(task.failReason))
      ensures sent == old(sent) + [Commands(InventoryCommands)]
    {
      var output := replies.inventory;
      sent := sent + [Commands(InventoryCommands)];
      if output.failed {
        flow := Refuse(Level.Error, "Can not collect outputs from device", FailConfig);
        return;
      }
      task.log := task.log + LogLine(stamp, Level.Debug, "----------vv Outputs vv----------");
      task.log := task.log + LogLine(stamp, Level.Debug, output.result);
      task.log := task.log + LogLine(stamp, Level.Debug, "----------^^ Outputs ^^----------");
      if output.pid.None? {
        flow := Refuse(Level.Error, "Can not get device PID", FailConfig);
        return;
      }
      var pid := output.pid.value;
      task.log := task.log + LogLine(stamp, Level.Info, "PID: " + pid);
      if output.sn.None? {
        flow := Refuse(Level.Error, "Can not get device SN", FailConfig);
        return;
      }
      var sn := output.sn.value;
      task.log := task.log + LogLine(stamp, Level.Info, "SN: " + sn);
      flow := CompareIdentity(pid, sn);
    }

    /** The last check of the inventory part: the PID and SN found against the record. */
    method CompareIdentity(pid: string, sn: string) returns (flow: Flow)
      modifies task`status, task`message, task`failReason, task`log
      ensures var v := if IdentityMatches(pid, sn, facts.model, facts.serial) then Pass
                       else Skip(FailConfig, "Device PID/SN does not match with NetBox data");
        flow == FlowOf(v) && Settled(v, old(task.status), old(task.message), old(task.failReason))
    {
      if !IdentityMatches(pid, sn, facts.model, facts.serial) {
        flow := Refuse(Level.Error, "Device PID/SN does not match with NetBox data", FailConfig);
        return;
      }
      task.log := task.log + LogLine(stamp, Level.Info, "Device " + pid + "/" + sn + " matches with NetBox data");
      flow := Proceed;
    }

    /** The file part of check_device(): the listing's first file system and the target image on it. */
    method LocateImage() returns (flow: Flow)
      requires Ready()
      modifies this`files, this`fileSystem, this`targetImage, this`targetPath, this`imageOnDevice, task`log
      ensures flow == FlowOf(LocateVerdict(replies.inventory.files, TargetOf(facts)))
      ensures flow.Proceed? ==> Validated() && Located()
    {
      files := replies.inventory.files;
      if files == [] {
        flow := Crash;
        return;
      }
      fileSystem := Strip(files[0].fileSystem, '/');
      if facts.image.None? {
        flow := Crash;
        return;
      }
      targetImage := facts.image.value.filename;
      if !facts.image.value.attached {
        flow := Crash;
        return;
      }
      targetPath := facts.image.value.path;
      imageOnDevice := FilesNamed(files, targetImage);
      ReportLocation();
      flow := Proceed;
    }

    /** The debug lines of the image lookup; only the log grows. */
    method ReportLocation()
      modifies task`log
      ensures old(task.log) <= task.log
    {
      task.log := task.log + LogLine(stamp, Level.Debug, "File system: " + fileSystem);
      task.log := task.log + LogLine(stamp, Level.Debug, "Target Image: " + targetImage);
      task.log := task.log + LogLine(stamp, Level.Debug, "Target Path: " + targetPath);
      task.log := task.log + LogLine(stamp, Level.Debug, "Target Image on box: " + ReprList(Names(imageOnDevice)));
    }

    /** check_device(): a session, the identity check and the target image lookup. */
    method CheckDevice() returns (flow: Flow)
      requires Ready()
      modifies this`port, this`transport, this`attempts, this`sent, this`files, this`fileSystem,
               this`targetImage, this`targetPath, this`imageOnDevice,
               task`status, task`message, task`failReason, task`log
      ensures var connected := ConnectSucceeds(replies, old(port), |old(attempts)|);
        var v := DeviceCheckVerdict(connected, replies.inventory, facts.model, facts.serial, TargetOf(facts));
        && flow == FlowOf(v)
        && Settled(v, old(task.status), old(task.message), old(task.failReason))
        && sent == old(sent) + (if connected then [Commands(InventoryCommands)] else [])
      ensures Reconnected(old(port), old(transport), old(attempts))
      ensures flow.Proceed? ==> Validated() && Located()
    {
      var connected := ConnectCli();
      if !connected {
        flow := Refuse(Level.Error, "Can not connect to device CLI", FailConnect);
        return;
      }
      flow := Identify();
      if !flow.Proceed? {
        return;
      }
      flow := LocateImage();
    }

    /** The MD5 check shared by the upload and the reload. */
    method VerifyMd5() returns (flow: Flow)
      requires Validated()
      modifies this`sent, task`status, task`message, task`failReason, task`log
      ensures flow == FlowOf(Md5Verdict(replies.md5))
      ensures Settled(Md5Verdict(replies.md5), old(task.status), old(task.message), old(task.failReason))
      ensures sent == old(sent) + [Command(Md5Command(fileSystem, targetImage, facts.image.value.md5sum))]
    {
      task.log := task.log + LogLine(stamp, Level.Info, "MD5 verification ...");
      sent := sent + [Command(Md5Command(fileSystem, targetImage, facts.image.value.md5sum))];
      task.log := task.log + LogLine(stamp, Level.Debug, "MD5 verication result:\n" + LastN(replies.md5.result, 200));
      flow := JudgeMd5();
    }

    /** The decision on the device's answer to the MD5 check. */
    method JudgeMd5() returns (flow: Flow)
      modifies task`status, task`message, task`failReason, task`log
      ensures flow == FlowOf(Md5Verdict(replies.md5))
      ensures Settled(Md5Verdict(replies.md5), old(task.status), old(task.message), old(task.failReason))
    {
      if replies.md5.failed {
        flow := Refuse(Level.Error, "Can not check MD5", FailCheck);
        return;
      }
      if !Contains(replies.md5.result, "Verified") {
        flow := Refuse(Level.Error, "Wrong M5", FailCheck);
        return;
      }
      task.log := task.log + LogLine(stamp, Level.Info, "MD5 was verified");
      flow := Proceed;
    }

    /** The first half of the transfer: the space check and the preparing configuration. */
    method PrepareCopy() returns (flow: Flow)
      requires Validated()
      modifies this`sent, task`status, task`message, task`failReason, task`log
      ensures var v := PrepareVerdict(files[0].totalFree, facts.image.value.size, fileSystem, replies);
        && flow == FlowOf(v)
        && Settled(v, old(task.status), old(task.message), old(task.failReason))
        && sent == old(sent) + PrepareSent(files[0].totalFree, facts.image.value.size)
    {
      task.log := task.log + LogLine(stamp, Level.Info, "No image on the device. Need to transfer");
      var need := SpaceNeeded(facts.image.value.size);
      task.log := task.log + LogLine(stamp, Level.Debug, "Free on " + fileSystem + " " + IntStr(files[0].totalFree) + ",                 Image size (+10%) " + NatStr(need));
      if files[0].totalFree < need {
        flow := Refuse(Level.Error, "No enough space on " + fileSystem, FailUpload);
        return;
      }
      task.log := task.log + LogLine(stamp, Level.Info, "Download image from FTP...");
      sent := sent + [Config(PrepareConfig)];
      task.log := task.log + LogLine(stamp, Level.Debug, "Preparing for copy:\n" + replies.prepare.result);
      if replies.prepare.failed {
        flow := Refuse(Level.Error, "Can not change configuration", FailUpload);
        return;
      }
      flow := Proceed;
    }

    /** The second half: the copy from the FTP server and the rollback of the configuration. */
    method CopyImage() returns (flow: Flow)
      requires Validated()
      modifies this`sent, task`status, task`message, task`failReason, task`log
      ensures flow == FlowOf(CopyVerdict(replies))
      ensures Settled(CopyVerdict(replies), old(task.status), old(task.message), old(task.failReason))
      ensures sent == old(sent) + CopySent(settings, targetImage, fileSystem, replies)
    {
      var copy := CopyCommand(settings, targetImage, fileSystem);
      task.log := task.log + LogLine(stamp, Level.Debug, "Copy command: " + copy);
      sent := sent + [Command(copy)];
      task.log := task.log + LogLine(stamp, Level.Debug, "Copying process:\n" + replies.copy.result);
      if replies.copy.failed || !Contains(replies.copy.result, "OK") {
        flow := Refuse(Level.Error, "Can not download image from FTP", FailUpload);
        return;
      }
      sent := sent + [Config(UndoConfig)];
      task.log := task.log + LogLine(stamp, Level.Debug, "Rollback after copy:\n" + replies.undo.result);
      if replies.undo.failed {
        flow := Refuse(Level.Error, "Can not do rollback configuration", FailUpload);
        return;
      }
      flow := Proceed;
    }

    /** The transfer of file_upload_ftp() when the image is not on the device. */
    method Transfer() returns (flow: Flow)
      requires Validated()
      modifies this`sent, task`status, task`message, task`failReason, task`log
      ensures var v := TransferVerdict(files[0].totalFree, facts.image.value.size, fileSystem, replies);
        && flow == FlowOf(v)
        && Settled(v, old(task.status), old(task.message), old(task.failReason))
        && sent == old(sent) + TransferSent(files[0].totalFree, facts.image.value.size, settings, targetImage,
                                            fileSystem, replies)
    {
      flow := PrepareCopy();
      if !flow.Proceed? {
        return;
      }
      flow := CopyImage();
      AppendAssoc(old(sent), PrepareSent(files[0].totalFree, facts.image.value.size),
                  CopySent(settings, targetImage, fileSystem, replies));
    }

    /** file_upload_ftp() once connected: the transfer unless the image is there, then the checksum. */
    method UploadSession() returns (flow: Flow)
      requires Validated()
      modifies this`sent, task`status, task`message, task`failReason, task`log
      ensures var size := facts.image.value.size;
        var v := UploadVerdict(true, imageOnDevice != [], files[0].totalFree, size, fileSystem, replies);
        && flow == FlowOf(v)
        && Settled(v, old(task.status), old(task.message), old(task.failReason))
        && sent == old(sent) + UploadSent(true, imageOnDevice != [], files[0].totalFree, size, fileSystem,
                                          settings, targetImage, facts.image.value.md5sum, replies)
    {
      if imageOnDevice == [] {
        flow := Transfer();
        if !flow.Proceed? {
          return;
        }
      } else {
        task.log := task.log + LogLine(stamp, Level.Info, "Image " + targetImage + " already exists");
      }
      flow := VerifyMd5();
      AppendAssoc(old(sent), if imageOnDevice == [] then TransferSent(files[0].totalFree, facts.image.value.size,
                    settings, targetImage, fileSystem, replies) else [],
                  [Command(Md5Command(fileSystem, targetImage, facts.image.value.md5sum))]);
      if !flow.Proceed? {
        return;
      }
      task.log := task.log + LogLine(stamp, Level.Info, "File was uploaded and verified");
    }

    /** file_upload_ftp(). */
    method FileUploadFtp() returns (flow: Flow)
      requires Validated()
      modifies this`port, this`transport, this`attempts, this`sent,
               task`status, task`message, task`failReason, task`log
      ensures var connected := ConnectSucceeds(replies, old(port), |old(attempts)|);
        var size := facts.image.value.size;
        var v := UploadVerdict(connected, imageOnDevice != [], files[0].totalFree, size, fileSystem, replies);
        && flow == FlowOf(v)
        && Settled(v, old(task.status), old(task.message), old(task.failReason))
        && sent == old(sent) + UploadSent(connected, imageOnDevice != [], files[0].totalFree, size, fileSystem,
                                          settings, targetImage, facts.image.value.md5sum, replies)
      ensures Reconnected(old(port), old(transport), old(attempts))
    {
      var connected := ConnectCli();
      if !connected {
        flow := Refuse(Level.Error, "Unable to connect to the device", FailConnect);
        return;
      }
      flow := UploadSession();
    }

    /** "write memory", with the interactive form after a timeout or a closed connection. */
    method WriteMemory(w: WriteReply) returns (flow: Flow)
      modifies this`sent, task`status, task`message, task`failReason, task`log
      ensures flow == FlowOf(WriteVerdict(w))
      ensures Settled(WriteVerdict(w), old(task.status), old(task.message), old(task.failReason))
      ensures sent == old(sent) + WriteSent(w)
    {
      sent := sent + [Command("write memory")];
      var result := "";
      if w.Saved? {
        result := w.result;
      } else {
        task.log := task.log + LogLine(stamp, Level.Info, "Interactive prompt was detected");
        if !w.reopened {
          flow := Crash;
          return;
        }
        sent := sent + [Dialog(WriteDialog)];
        if !w.interactive.Answered? {
          flow := Fail("Unable to write memory: ScrapliTimeout", FailUpgrade);
          return;
        }
        result := w.interactive.result;
      }
      if !Contains(result, "[OK]") {
        flow := Fail("Can not save config", FailUpgrade);
        return;
      }
      task.log := task.log + LogLine(stamp, Level.Info, "Config was saved");
      flow := Proceed;
    }

    /** A device already on the target: the found version is recorded in the custom field and the task is skipped. */
    method KeepVersion(current: string, msg: string) returns (flow: Flow)
      requires Ready()
      modifies task`status, task`message, task`failReason, task`log, device`customFieldData
      ensures flow == FlowOf(Skip(FailUpgrade, msg))
      ensures Settled(Skip(FailUpgrade, msg), old(task.status), old(task.message), old(task.failReason))
      ensures device.customFieldData == old(device.customFieldData)[settings.cfNameSwVersion := current]
    {
      task.log := task.log + LogLine(stamp, Level.Warning, msg);
      task.log := task.log + LogLine(stamp, Level.Info, "Update custom field");
      device.customFieldData := device.customFieldData[settings.cfNameSwVersion := current];
      flow := SkipTask(msg, FailUpgrade);
      var tail := LogLine(stamp, Level.Warning, msg) + LogLine(stamp, Level.Info, "Update custom field");
      assert task.log == old(task.log) + tail;
      EndsWithAppended(old(task.log), tail);
    }

    /** The first part of device_reload(): the outputs, the current version and the image on the box. */
    method ReadBoot() returns (flow: Flow)
      requires Validated()
      modifies this`sent, task`status, task`message, task`failReason, task`log, device`customFieldData
      ensures var v := BootGateVerdict(replies.bootInfo, facts.image.value.version, imageOnDevice != []);
        && flow == FlowOf(v)
        && Settled(v, old(task.status), old(task.message), old(task.failReason))
        && sent == old(sent) + [Commands(BootCommands)]
        && device.customFieldData
           == Written(old(device.customFieldData), ReloadFieldWrite(true, replies.bootInfo, facts.image.value.version))
    {
      var output := replies.bootInfo;
      sent := sent + [Commands(BootCommands)];
      task.log := task.log + LogLine(stamp, Level.Debug, "Collected outputs:------vvvvv\n" + output.result + "\n-----^^^^^");
      if output.failed {
        flow := Refuse(Level.Error, "Can not collect outputs for upgrade", FailUpgrade);
        return;
      }
      if output.versions == [] {
        flow := Crash;
        return;
      }
      var current := VersionOf(output.versions[0]);
      var target := facts.image.value.version;
      task.log := task.log + LogLine(stamp, Level.Debug, "Current version is " + current);
      if VersionMatches(current, target) {
        flow := KeepVersion(current, "Current version " + current + " matches with target " + target);
        return;
      }
      if imageOnDevice == [] {
        flow := Refuse(Level.Error, "No target image on the box", FailUpgrade);
        return;
      }
      task.log := task.log + LogLine(stamp, Level.Info, "Image exists on the box");
      flow := Proceed;
    }

    /** The new boot lines, logged before and after they are built. */
    method PrepareBootLines() returns (newLines: seq<string>)
      modifies task`log
      ensures newLines == BootLines(replies.bootInfo.bootLines, fileSystem, targetImage)
    {
      task.log := task.log + LogLine(stamp, Level.Info, "Preparing boot system config");
      var oldLines := replies.bootInfo.bootLines;
      task.log := task.log + LogLine(stamp, Level.Debug, "Orginal boot lines:\n" + ReprList(oldLines));
      newLines := BuildBootLines(oldLines, fileSystem, targetImage);
      task.log := task.log + LogLine(stamp, Level.Debug, "New boot lines:\n" + ReprList(newLines));
    }

    /** The boot variable change of device_reload(): the new boot lines are sent as configuration. */
    method SetBootVar() returns (flow: Flow)
      requires Validated()
      modifies this`sent, task`status, task`message, task`failReason, task`log
      ensures var v := if replies.bootvar.failed then Drop(FailUpgrade, "Unable to change bootvar") else Pass;
        flow == FlowOf(v) && Settled(v, old(task.status), old(task.message), old(task.failReason))
      ensures sent == old(sent) + [Config(BootLines(replies.bootInfo.bootLines, fileSystem, targetImage))]
    {
      var newLines := PrepareBootLines();
      sent := sent + [Config(newLines)];
      task.log := task.log + LogLine(stamp, Level.Debug, "Changnig Boot vars:\n" + replies.bootvar.result);
      if replies.bootvar.failed {
        flow := Fail("Unable to change bootvar", FailUpgrade);
        return;
      }
      task.log := task.log + LogLine(stamp, Level.Info, "Bootvar was changed");
      flow := Proceed;
    }

    /** "reload in 1": only a timeout is caught. */
    method RequestReload() returns (flow: Flow)
      modifies this`sent, task`status, task`message, task`failReason, task`log
      ensures flow == FlowOf(ReloadRequestVerdict(replies.reload))
      ensures Settled(ReloadRequestVerdict(replies.reload), old(task.status), old(task.message), old(task.failReason))
      ensures sent == old(sent) + [Dialog(ReloadDialog)]
    {
      task.log := task.log + LogLine(stamp, Level.Info, "Reloading the box");
      sent := sent + [Dialog(ReloadDialog)];
      if replies.reload.TimedOut? {
        flow := Fail("Unable to reload: ScrapliTimeout", FailUpgrade);
        return;
      }
      if replies.reload.ConnectionLost? {
        flow := Crash;
        return;
      }
      task.log := task.log + LogLine(stamp, Level.Info, "Reload was requested");
      flow := Proceed;
    }

    /** The last part of device_reload(): the new boot lines, saving, and the reload request. */
    method ChangeBoot() returns (flow: Flow)
      requires Validated()
      modifies this`sent, task`status, task`message, task`failReason, task`log
      ensures flow == FlowOf(ChangeVerdict(replies))
      ensures Settled(ChangeVerdict(replies), old(task.status), old(task.message), old(task.failReason))
      ensures sent == old(sent) + ChangeSent(replies.bootInfo.bootLines, fileSystem, targetImage, replies)
    {
      var boot := Config(BootLines(replies.bootInfo.bootLines, fileSystem, targetImage));
      flow := SetBootVar();
      if !flow.Proceed? {
        return;
      }
      task.log := task.log + LogLine(stamp, Level.Info, "Write memory before reload");
      flow := WriteMemory(replies.writeBefore);
      AppendAssoc(old(sent), [boot], WriteSent(replies.writeBefore));
      if !flow.Proceed? {
        return;
      }
      flow := RequestReload();
      AppendAssoc(old(sent), [boot] + WriteSent(replies.writeBefore), [Dialog(ReloadDialog)]);
    }

    /** device_reload() once connected: the outputs, the checksum, then the boot change. */
    method ReloadSession() returns (flow: Flow)
      requires Validated()
      modifies this`sent, task`status, task`message, task`failReason, task`log, device`customFieldData
      ensures var version := facts.image.value.version;
        var v := ReloadVerdict(true, replies.bootInfo, version, imageOnDevice != [], replies);
        && flow == FlowOf(v)
        && Settled(v, old(task.status), old(task.message), old(task.failReason))
        && sent == old(sent) + ReloadSent(true, replies.bootInfo, version, imageOnDevice != [],
                                          fileSystem, targetImage, facts.image.value.md5sum, replies)
        && device.customFieldData
           == Written(old(device.customFieldData), ReloadFieldWrite(true, replies.bootInfo, version))
    {
      flow := ReadBoot();
      if !flow.Proceed? {
        return;
      }
      flow := VerifyMd5();
      if !flow.Proceed? {
        return;
      }
      flow := ChangeBoot();
      AppendAssoc(old(sent), [Commands(BootCommands), Command(Md5Command(fileSystem, targetImage, facts.image.value.md5sum))],
                  ChangeSent(replies.bootInfo.bootLines, fileSystem, targetImage, replies));
    }

    /** device_reload(): up to the boot variable change every refusal is a skip, from it on a failure. */
    method DeviceReload() returns (flow: Flow)
      requires Validated()
      modifies this`port, this`transport, this`attempts, this`sent,
               task`status, task`message, task`failReason, task`log, device`customFieldData
      ensures var connected := ConnectSucceeds(replies, old(port), |old(attempts)|);
        var version := facts.image.value.version;
        var v := ReloadVerdict(connected, replies.bootInfo, version, imageOnDevice != [], replies);
        && flow == FlowOf(v)
        && Settled(v, old(task.status), old(task.message), old(task.failReason))
        && sent == old(sent) + ReloadSent(connected, replies.bootInfo, version, imageOnDevice != [],
                                          fileSystem, targetImage, facts.image.value.md5sum, replies)
        && device.customFieldData
           == Written(old(device.customFieldData), ReloadFieldWrite(connected, replies.bootInfo, version))
      ensures Reconnected(old(port), old(transport), old(attempts))
    {
      var connected := ConnectCli();
      if !connected {
        flow := Refuse(Level.Error, "Unable to connect to the device", FailConnect);
        return;
      }
      flow := ReloadSession();
    }

    /** One try of the wait after the reload. */
    method TryAfterReload(tryNumber: nat, max: nat) returns (alive: bool)
      modifies this`probesUsed, this`probed, task`log
      ensures alive == Alive(ProbeAt(replies, old(probesUsed)))
      ensures probesUsed == old(probesUsed) + 1
    {
      task.log := task.log + LogLine(stamp, Level.Info, "Connecting after reload " + NatStr(tryNumber) + "/" + NatStr(max) + "...");
      alive := IsAlive();
      if alive {
        task.log := task.log + LogLine(stamp, Level.Info, "Device became online");
      } else {
        task.log := task.log + LogLine(stamp, Level.Info, "Device is not online, next try in " + NatStr(settings.secondsBetweenAttempts) + " seconds");
      }
    }

    /** The wait after the reload: up to maxAttempts probes, leaving at the
        first answer, then one more probe that decides. */
    method AwaitReload() returns (online: bool)
      modifies this`probesUsed, this`probed, task`log
      ensures probesUsed == old(probesUsed) + LoopProbes(replies, old(probesUsed), settings.maxAttempts) + 1
      ensures online == Alive(ProbeAt(replies, old(probesUsed) + LoopProbes(replies, old(probesUsed), settings.maxAttempts)))
    {
      task.log := task.log + LogLine(stamp, Level.Info, "Hold for 240 seconds");
      var max := settings.maxAttempts;
      var tryNumber := 1;
      while tryNumber <= max
        invariant 1 <= tryNumber <= max + 1
        invariant probesUsed == old(probesUsed) + tryNumber - 1
        invariant LoopProbes(replies, old(probesUsed), max)
               == tryNumber - 1 + LoopProbes(replies, probesUsed, max - (tryNumber - 1))
      {
        var alive := TryAfterReload(tryNumber, max);
        if alive {
          break;
        }
        tryNumber := tryNumber + 1;
      }
      online := IsAlive();
    }

    /** post_check() once connected: the new version, saving, and the custom field. */
    method PostSession() returns (flow: Flow)
      requires Ready()
      modifies this`sent, task`status, task`message, task`failReason, task`log, device`customFieldData
      ensures var v := PostCheckVerdict(true, replies.postVersion, replies.writeAfter);
        && flow == FlowOf(v)
        && Settled(v, old(task.status), old(task.message), old(task.failReason))
        && sent == old(sent) + PostSent(true, replies.postVersion, replies.writeAfter)
        && device.customFieldData
           == Written(old(device.customFieldData), PostFieldWrite(true, replies.postVersion, replies.writeAfter))
    {
      var output := replies.postVersion;
      sent := sent + [Commands(PostCommands)];
      task.log := task.log + LogLine(stamp, Level.Debug, "Commands output\n" + output.result);
      if output.failed {
        flow := Fail("Can not collect outputs for post-chech", FailUpgrade);
        return;
      }
      if output.versions == [] {
        flow := Crash;
        return;
      }
      var newVersion := VersionOf(output.versions[0]);
      task.log := task.log + LogLine(stamp, Level.Info, "New version is " + newVersion);
      task.log := task.log + LogLine(stamp, Level.Info, "Write memory after reload");
      flow := WriteMemory(replies.writeAfter);
      AppendAssoc(old(sent), [Commands(PostCommands)], WriteSent(replies.writeAfter));
      if !flow.Proceed? {
        return;
      }
      task.log := task.log + LogLine(stamp, Level.Info, "Update custom field");
      device.customFieldData := device.customFieldData[settings.cfNameSwVersion := newVersion];
      task.log := task.log + LogLine(stamp, Level.Info, "Post-checks have been done");
    }

    /** post_check(): every refusal fails the task; success records the new version. */
    method PostCheck() returns (flow: Flow)
      requires Ready()
      modifies this`port, this`transport, this`attempts, this`sent,
               task`status, task`message, task`failReason, task`log, device`customFieldData
      ensures var connected := ConnectSucceeds(replies, old(port), |old(attempts)|);
        var v := PostCheckVerdict(connected, replies.postVersion, replies.writeAfter);
        && flow == FlowOf(v)
        && Settled(v, old(task.status), old(task.message), old(task.failReason))
        && sent == old(sent) + PostSent(connected, replies.postVersion, replies.writeAfter)
        && device.customFieldData
           == Written(old(device.customFieldData), PostFieldWrite(connected, replies.postVersion, replies.writeAfter))
      ensures Reconnected(old(port), old(transport), old(attempts))
    {
      var connected := ConnectCli();
      if !connected {
        flow := Fail("Unable to connect to the device", FailConnect);
        return;
      }
      flow := PostSession();
    }

    /** The wait after the reload, then the post-check, or the failure when the device stays silent. */
    method AfterReload() returns (flow: Flow)
      requires Ready()
      modifies this`port, this`transport, this`attempts, this`sent, this`probesUsed, this`probed,
               task`status, task`message, task`failReason, task`log, device`customFieldData
      ensures var v := AfterReloadVerdict(replies, settings, old(port), |old(attempts)|, old(probesUsed));
        flow == FlowOf(v) && Settled(v, old(task.status), old(task.message), old(task.failReason))
      ensures sent == old(sent) + AfterReloadSent(replies, settings, old(port), |old(attempts)|, old(probesUsed))
      ensures device.customFieldData
           == Written(old(device.customFieldData),
                      AfterReloadFieldWrite(replies, settings, old(port), |old(attempts)|, old(probesUsed)))
    {
      var online := AwaitReload();
      if !online {
        flow := Fail("Device was lost after reload", FailUpgrade);
        return;
      }
      task.log := task.log + LogLine(stamp, Level.Info, "Checks after reload");
      flow := PostCheck();
    }

    /** The upgrade branch of execute_task(): the reload, the wait, then the post-check. */
    method UpgradeWork() returns (flow: Flow)
      requires Validated()
      modifies this`port, this`transport, this`attempts, this`sent, this`probesUsed, this`probed,
               task`status, task`message, task`failReason, task`log, device`customFieldData
      ensures var v := UpgradeVerdict(facts.image.value, imageOnDevice != [], replies, settings,
                                      old(port), |old(attempts)|, old(probesUsed));
        flow == FlowOf(v) && Settled(v, old(task.status), old(task.message), old(task.failReason))
      ensures sent == old(sent) + UpgradeSent(facts.image.value, imageOnDevice != [], fileSystem, targetImage,
                                              replies, settings, old(port), |old(attempts)|, old(probesUsed))
      ensures device.customFieldData
           == Written(old(device.customFieldData),
                      UpgradeFieldWrite(facts.image.value, imageOnDevice != [], replies, settings,
                                        old(port), |old(attempts)|, old(probesUsed)))
    {
      task.log := task.log + LogLine(stamp, Level.Info, "Reloading the box...");
      flow := DeviceReload();
      if !flow.Proceed? {
        return;
      }
      var reloaded := sent;
      flow := AfterReload();
      AppendAssoc(old(sent), reloaded[|old(sent)|..], sent[|reloaded|..]);
    }

    /** The branch of execute_task() after the validation: the upload, or the upgrade. */
    method Work() returns (flow: Flow)
      requires Validated() && Located()
      modifies this`port, this`transport, this`attempts, this`sent, this`probesUsed, this`probed,
               task`status, task`message, task`failReason, task`log, device`customFieldData
      ensures var v := WorkVerdict(facts, replies, settings, old(port), |old(attempts)|, old(probesUsed));
        flow == FlowOf(v) && Settled(v, old(task.status), old(task.message), old(task.failReason))
      ensures sent == old(sent) + WorkSent(facts, replies, settings, old(port), |old(attempts)|, old(probesUsed))
      ensures device.customFieldData
           == Written(old(device.customFieldData),
                      WorkFieldWrite(facts, replies, settings, old(port), |old(attempts)|, old(probesUsed)))
    {
      if facts.taskType == Upload {
        task.log := task.log + LogLine(stamp, Level.Info, "Uploadng image on the box...");
        flow := FileUploadFtp();
      } else {
        flow := UpgradeWork();
      }
    }

    /** The start of execute_task(): the initial check, then one liveness probe. */
    method Admit() returns (flow: Flow)
      requires Ready()
      modifies this`probesUsed, this`probed, task`status, task`message, task`failReason, task`log
      ensures var v := AdmitVerdict(facts, replies, settings, counts, old(probesUsed));
        flow == FlowOf(v) && Settled(v, old(task.status), old(task.message), old(task.failReason))
      ensures flow.Proceed? ==> probesUsed == old(probesUsed) + 1
    {
      task.log := task.log + LogLine(stamp, Level.Info, "Initial task checking...");
      flow := Check();
      if !flow.Proceed? {
        return;
      }
      task.log := task.log + LogLine(stamp, Level.Info, "Initial task check has been completed");
      task.log := task.log + LogLine(stamp, Level.Info, "Checking if device alive...");
      var alive := IsAlive();
      var where := "Device " + facts.name + ":" + facts.ip;
      if !alive {
        flow := Refuse(Level.Warning, where + " is not reachable", FailConnect);
        return;
      }
      task.log := task.log + LogLine(stamp, Level.Info, where + " is reachable");
    }

    /** The validation step of execute_task(), between its two log lines. */
    method Validate() returns (flow: Flow)
      requires Ready()
      modifies this`port, this`transport, this`attempts, this`sent, this`files, this`fileSystem,
               this`targetImage, this`targetPath, this`imageOnDevice,
               task`status, task`message, task`failReason, task`log
      ensures var connected := ConnectSucceeds(replies, old(port), |old(attempts)|);
        var v := DeviceCheckVerdict(connected, replies.inventory, facts.model, facts.serial, TargetOf(facts));
        && flow == FlowOf(v)
        && Settled(v, old(task.status), old(task.message), old(task.failReason))
        && sent == old(sent) + (if connected then [Commands(InventoryCommands)] else [])
      ensures Reconnected(old(port), old(transport), old(attempts))
      ensures flow.Proceed? ==> Validated() && Located()
    {
      task.log := task.log + LogLine(stamp, Level.Info, "Device valiation...");
      flow := CheckDevice();
      if !flow.Proceed? {
        return;
      }
      task.log := task.log + LogLine(stamp, Level.Info, "Device has been validated");
    }

    /** execute_task() after a passed admission: the validation, then the work of the task's type. */
    method Admitted() returns (flow: Flow)
      requires Ready()
      modifies this`port, this`transport, this`attempts, this`sent, this`probesUsed, this`probed,
               this`files, this`fileSystem, this`targetImage, this`targetPath, this`imageOnDevice,
               task`status, task`message, task`failReason, task`log, device`customFieldData
      ensures var v := AdmittedVerdict(facts, replies, settings, old(port), |old(attempts)|, old(probesUsed));
        flow == FlowOf(v) && Settled(v, old(task.status), old(task.message), old(task.failReason))
      ensures sent == old(sent) + AdmittedSent(facts, replies, settings, old(port), |old(attempts)|, old(probesUsed))
      ensures device.customFieldData
           == Written(old(device.customFieldData),
                      AdmittedFieldWrite(facts, replies, settings, old(port), |old(attempts)|, old(probesUsed)))
    {
      flow := Validate();
      if !flow.Proceed? {
        return;
      }
      AdmittedReachesWork(facts, replies, settings, old(port), |old(attempts)|, old(probesUsed));
      AdmittedSendsWork(facts, replies, settings, old(port), |old(attempts)|, old(probesUsed));
      AdmittedWritesWork(facts, replies, settings, old(port), |old(attempts)|, old(probesUsed));
      var validated := sent;
      flow := Work();
      AppendAssoc(old(sent), validated[|old(sent)|..], sent[|validated|..]);
    }

    /** execute_task(): admission, validation, then the work of the task's type. */
    method ExecuteTask() returns (flow: Flow)
      requires Ready()
      modifies this`port, this`transport, this`attempts, this`sent, this`probesUsed, this`probed,
               this`files, this`fileSystem, this`targetImage, this`targetPath, this`imageOnDevice,
               task`status, task`message, task`failReason, task`log, device`customFieldData
      ensures var v := RunVerdict(facts, replies, settings, counts, old(port), |old(attempts)|, old(probesUsed));
        flow == FlowOf(v) && Settled(v, old(task.status), old(task.message), old(task.failReason))
      ensures sent == old(sent) + RunSent(facts, replies, settings, counts, old(port), |old(attempts)|, old(probesUsed))
      ensures device.customFieldData
           == Written(old(device.customFieldData),
                      RunFieldWrite(facts, replies, settings, counts, old(port), |old(attempts)|, old(probesUsed)))
    {
      task.log := task.log + LogLine(stamp, Level.Info, "New Job " + facts.jobId + " was started. Type " + facts.taskType.Value());
      flow := Admit();
      if !flow.Proceed? {
        return;
      }
      flow := Admitted();
    }
  }
}
