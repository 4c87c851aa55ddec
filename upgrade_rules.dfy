// The decisions of the upgrade executor, as functions of what the device
// answered and what the records hold. UpgradeDevice (executor.dfy) carries them
// out step by step; its methods are proved to end exactly as these functions
// say, and the lemmas here state the policy: which gate stops a task with
// which reason, where a skip turns into a failure, how far the transport
// fallback goes, what the new boot configuration is, and how often the
// device is probed after its reload.

module UpgradeRules {
  import opened Wrappers
  import opened Text
  import opened Choices
  import opened DeviceOracle

  /** The plugin settings the executor reads. */
  datatype Settings = Settings(
    cfNameSwVersion: string,
    threshold: int,
    maxAttempts: nat,
    secondsBetweenAttempts: nat,
    ftpUsername: string,
    ftpPassword: string,
    ftpServer: string)

  /** The counts behind the failure threshold: jobs running in the upgrade
      queue, and task records that have started and are not confirmed. */
  datatype QueueCounts = QueueCounts(active: nat, unconfirmed: nat)

  /** The session transport; a fallback switches to telnet on port 23. */
  datatype Transport = Paramiko | Telnet

  /** What the executor sends to the device, in order. */
  datatype Sent =
    | Commands(cmds: seq<string>)                 // send_commands
    | Config(lines: seq<string>)                  // send_configs
    | Command(cmd: string)                        // send_command
    | Dialog(steps: seq<(string, string)>)        // send_interactive: (input, expected prompt)

  /** How a step ends: it passes, skips or drops the task with a reason and a
      message, or breaks with an untyped error. */
  datatype Verdict = Pass | Skip(reason: FailReason, msg: string) | Drop(reason: FailReason, msg: string) | Broken

  /** Steps run in order; the first that does not pass decides. */
  function Then(a: Verdict, b: Verdict): Verdict {
    if a.Pass? then b else a
  }

  // ---------------------------------------------------------------- admission

  /** The maintenance window has elapsed: start_time > scheduled_time + mw_duration hours. */
  predicate WindowOver(start: int, scheduled: int, mwHours: nat) {
    start > scheduled + mwHours * 3600
  }

  /** The failure threshold is reached: unconfirmed >= active + threshold. */
  predicate ThresholdReached(unconfirmed: nat, active: nat, threshold: int) {
    unconfirmed >= active + threshold
  }

  function ThresholdDetails(c: QueueCounts, threshold: int): string {
    "Unconfirmed: " + NatStr(c.unconfirmed) + ", active: " + NatStr(c.active)
    + ", failed: " + IntStr(c.unconfirmed - c.active) + ", threshold: " + IntStr(threshold)
  }

  /** check(): the golden image gate, then the maintenance window gate, then
      (upgrade tasks only) the failure threshold gate. A missing time or
      window length is a type error in the comparison. */
  function CheckVerdict(model: string, hasGolden: bool, start: Option<int>, scheduled: Option<int>,
                        mw: Option<nat>, taskType: TaskType, counts: QueueCounts, threshold: int): Verdict
  {
    if !hasGolden then Skip(FailCheck, "No Golden Image for " + model)
    else if start.None? || scheduled.None? || mw.None? then Broken
    else if WindowOver(start.value, scheduled.value, mw.value) then Skip(FailCheck, "Maintenance Window is over")
    else if taskType == Upgrade && ThresholdReached(counts.unconfirmed, counts.active, threshold) then
      Skip(FailCheck, "Reached failure threshold: " + ThresholdDetails(counts, threshold))
    else Pass
  }

  /** Every refusal of check() is a skip with fail-check; it never drops a task. */
  lemma CheckOnlySkipsWithFailCheck(model: string, hasGolden: bool, start: Option<int>, scheduled: Option<int>,
                                    mw: Option<nat>, taskType: TaskType, counts: QueueCounts, threshold: int)
    ensures var v := CheckVerdict(model, hasGolden, start, scheduled, mw, taskType, counts, threshold);
      !v.Drop? && (v.Skip? ==> v.reason == FailCheck)
  {
  }

  /** The first gate decides alone: without a golden image nothing else is considered. */
  lemma MissingGoldenImageStopsFirst(model: string, start: Option<int>, scheduled: Option<int>,
                                     mw: Option<nat>, taskType: TaskType, counts: QueueCounts, threshold: int)
    ensures CheckVerdict(model, false, start, scheduled, mw, taskType, counts, threshold)
         == Skip(FailCheck, "No Golden Image for " + model)
  {
  }

  /** The window comparison is strict: starting exactly at its end passes the gate, one second later does not. */
  lemma WindowEndIsInside(model: string, scheduled: int, mw: nat, taskType: TaskType, counts: QueueCounts, threshold: int)
    ensures CheckVerdict(model, true, Some(scheduled + mw * 3600), Some(scheduled), Some(mw), taskType, counts, threshold)
         != Skip(FailCheck, "Maintenance Window is over")
    ensures CheckVerdict(model, true, Some(scheduled + mw * 3600 + 1), Some(scheduled), Some(mw), taskType, counts, threshold)
         == Skip(FailCheck, "Maintenance Window is over")
  {
    var d := ThresholdDetails(counts, threshold);
    assert "Reached failure threshold: " + d != "Maintenance Window is over" by {
      assert ("Reached failure threshold: " + d)[0] == 'R';
    }
  }

  /** Past the first two gates an upgrade task is skipped exactly when the threshold is reached. */
  lemma ThresholdGate(model: string, start: int, scheduled: int, mw: nat, counts: QueueCounts, threshold: int)
    requires !WindowOver(start, scheduled, mw)
    ensures CheckVerdict(model, true, Some(start), Some(scheduled), Some(mw), Upgrade, counts, threshold).Skip?
        <==> counts.unconfirmed >= counts.active + threshold
  {
  }

  /** An upload task never consults the threshold: the counts and the threshold do not matter. */
  lemma UploadIgnoresThreshold(model: string, hasGolden: bool, start: Option<int>, scheduled: Option<int>,
                               mw: Option<nat>, c1: QueueCounts, t1: int, c2: QueueCounts, t2: int)
    ensures CheckVerdict(model, hasGolden, start, scheduled, mw, Upload, c1, t1)
         == CheckVerdict(model, hasGolden, start, scheduled, mw, Upload, c2, t2)
  {
  }

  // ---------------------------------------------------------------- sessions

  /** The ports connect_cli tries in one call: the current port, and port 23 once if that was not 23. */
  function ConnectPorts(r: DeviceReplies, port: int, cursor: nat): seq<int> {
    if OpenAt(r, cursor).Opened? then [port]
    else if port != 23 then [port, 23]
    else [port]
  }

  /** connect_cli returns a session iff the first attempt opens, or the fallback attempt does. */
  predicate ConnectSucceeds(r: DeviceReplies, port: int, cursor: nat) {
    OpenAt(r, cursor).Opened? || (port != 23 && OpenAt(r, cursor + 1).Opened?)
  }

  /** The port after connect_cli: unchanged when the first attempt opens, else 23 (the switch persists). */
  function PortAfterConnect(r: DeviceReplies, port: int, cursor: nat): int {
    if OpenAt(r, cursor).Opened? then port else 23
  }

  /** The fallback is bounded: at most two attempts, the second one on port 23,
      and a call that starts on port 23 (as every call after a fallback does)
      makes exactly one attempt. */
  lemma FallbackIsBounded(r: DeviceReplies, port: int, cursor: nat)
    ensures 1 <= |ConnectPorts(r, port, cursor)| <= 2
    ensures ConnectPorts(r, port, cursor)[0] == port
    ensures |ConnectPorts(r, port, cursor)| == 2 <==> port != 23 && !OpenAt(r, cursor).Opened?
    ensures |ConnectPorts(r, port, cursor)| == 2 ==> ConnectPorts(r, port, cursor)[1] == 23
    ensures !OpenAt(r, cursor).Opened? ==> PortAfterConnect(r, port, cursor) == 23
    ensures forall c :: |ConnectPorts(r, 23, c)| == 1
    ensures ConnectSucceeds(r, 23, cursor) <==> OpenAt(r, cursor).Opened?
  {
  }

  // ---------------------------------------------------------------- identity

  /** The device is the one on record: PID equals the model ignoring case (both
      upper-cased), SN equals the serial ignoring case (both lower-cased). */
  predicate IdentityMatches(pid: string, sn: string, model: string, serial: string) {
    Upper(pid) == Upper(model) && Lower(sn) == Lower(serial)
  }

  lemma UpperIdempotent(s: string)
    ensures Upper(Upper(s)) == Upper(s)
  {
    UpperAt(s);
    UpperAt(Upper(s));
    assert forall i :: 0 <= i < |s| ==> UpperChar(UpperChar(s[i])) == UpperChar(s[i]);
  }

  lemma LowerIdempotent(s: string)
    ensures Lower(Lower(s)) == Lower(s)
  {
    LowerAt(s);
    LowerAt(Lower(s));
    assert forall i :: 0 <= i < |s| ==> LowerChar(LowerChar(s[i])) == LowerChar(s[i]);
  }

  /** Case does not matter in what the device reports. */
  lemma IdentityIgnoresCase(pid: string, sn: string, model: string, serial: string)
    ensures IdentityMatches(Upper(pid), Lower(sn), model, serial) == IdentityMatches(pid, sn, model, serial)
  {
    UpperIdempotent(pid);
    LowerIdempotent(sn);
  }

  /** Case does not matter in the record either. */
  lemma RecordIgnoresCase(pid: string, sn: string, model: string, serial: string)
    ensures IdentityMatches(pid, sn, Upper(model), Lower(serial)) == IdentityMatches(pid, sn, model, serial)
  {
    UpperIdempotent(model);
    LowerIdempotent(serial);
  }

  /** The listed files whose name is exactly the target file name, in listing order. */
  function FilesNamed(files: seq<FileEntry>, name: string): (r: seq<FileEntry>)
    ensures |r| <= |files|
    ensures forall f :: f in r <==> f in files && f.name == name
  {
    if files == [] then []
    else FilesNamed(files[..|files| - 1], name)
         + (if files[|files| - 1].name == name then [files[|files| - 1]] else [])
  }

  /** The inventory part of check_device(): both outputs collected, a PID and
      an SN found, and both match the record. */
  function IdentityVerdict(inv: Inventory, model: string, serial: string): Verdict {
    if inv.failed then Skip(FailConfig, "Can not collect outputs from device")
    else if inv.pid.None? then Skip(FailConfig, "Can not get device PID")
    else if inv.sn.None? then Skip(FailConfig, "Can not get device SN")
    else if !IdentityMatches(inv.pid.value, inv.sn.value, model, serial) then
      Skip(FailConfig, "Device PID/SN does not match with NetBox data")
    else Pass
  }

  /** The listing needs a first row, and the golden image a file (target is
      its file name, None when no image or no file is bound); either missing
      is an untyped error. */
  function LocateVerdict(files: seq<FileEntry>, target: Option<string>): Verdict {
    if files == [] || target.None? then Broken else Pass
  }

  /** check_device(): a session, then the identity, then the image lookup. */
  function DeviceCheckVerdict(connected: bool, inv: Inventory, model: string, serial: string,
                              target: Option<string>): Verdict
  {
    if !connected then Skip(FailConnect, "Can not connect to device CLI")
    else Then(IdentityVerdict(inv, model, serial), LocateVerdict(inv.files, target))
  }

  /** Validation passes only for the recorded device, and every refusal is a skip. */
  lemma DeviceCheckPolicy(connected: bool, inv: Inventory, model: string, serial: string, target: Option<string>)
    ensures var v := DeviceCheckVerdict(connected, inv, model, serial, target);
      && !v.Drop?
      && (v.Skip? ==> v.reason == FailConnect || v.reason == FailConfig)
      && (v.Pass? <==> connected && !inv.failed && inv.pid.Some? && inv.sn.Some?
                       && IdentityMatches(inv.pid.value, inv.sn.value, model, serial)
                       && inv.files != [] && target.Some?)
      && (connected && !inv.failed && inv.pid.Some? && inv.sn.Some?
          && !IdentityMatches(inv.pid.value, inv.sn.value, model, serial) ==>
            v == Skip(FailConfig, "Device PID/SN does not match with NetBox data"))
  {
  }

  // ---------------------------------------------------------------- upload

  /** int(int(size) * 1.1), taken as the exact floor of 11 * size / 10. */
  function SpaceNeeded(size: nat): nat {
    size * 11 / 10
  }

  /** The MD5 check: the command must not fail and its output must contain "Verified". */
  function Md5Verdict(reply: Reply): Verdict {
    if reply.failed then Skip(FailCheck, "Can not check MD5")
    else if !Contains(reply.result, "Verified") then Skip(FailCheck, "Wrong M5")
    else Pass
  }

  lemma Md5Policy(reply: Reply)
    ensures Md5Verdict(reply).Pass? <==> !reply.failed && Contains(reply.result, "Verified")
    ensures !Md5Verdict(reply).Pass? ==> Md5Verdict(reply).Skip? && Md5Verdict(reply).reason == FailCheck
  {
  }

  /** The first half of the transfer: enough space, then the preparing configuration. */
  function PrepareVerdict(totalFree: int, size: nat, fileSystem: string, r: DeviceReplies): Verdict {
    if totalFree < SpaceNeeded(size) then Skip(FailUpload, "No enough space on " + fileSystem)
    else if r.prepare.failed then Skip(FailUpload, "Can not change configuration")
    else Pass
  }

  /** The second half: the copy must report "OK", then the configuration is rolled back. */
  function CopyVerdict(r: DeviceReplies): Verdict {
    if r.copy.failed || !Contains(r.copy.result, "OK") then Skip(FailUpload, "Can not download image from FTP")
    else if r.undo.failed then Skip(FailUpload, "Can not do rollback configuration")
    else Pass
  }

  /** The transfer when the image is not on the device. */
  function TransferVerdict(totalFree: int, size: nat, fileSystem: string, r: DeviceReplies): Verdict {
    Then(PrepareVerdict(totalFree, size, fileSystem, r), CopyVerdict(r))
  }

  /** The transfer refuses in this order: space, preparation, copy, rollback. */
  lemma TransferOrder(totalFree: int, size: nat, fileSystem: string, r: DeviceReplies)
    ensures var v := TransferVerdict(totalFree, size, fileSystem, r);
      && (totalFree < SpaceNeeded(size) ==> v == Skip(FailUpload, "No enough space on " + fileSystem))
      && (totalFree >= SpaceNeeded(size) && r.prepare.failed ==> v == Skip(FailUpload, "Can not change configuration"))
      && (totalFree >= SpaceNeeded(size) && !r.prepare.failed && (r.copy.failed || !Contains(r.copy.result, "OK"))
          ==> v == Skip(FailUpload, "Can not download image from FTP"))
      && (v.Pass? <==> totalFree >= SpaceNeeded(size) && !r.prepare.failed && !r.copy.failed
                       && Contains(r.copy.result, "OK") && !r.undo.failed)
      && (v.Pass? || (v.Skip? && v.reason == FailUpload))
  {
  }

  /** file_upload_ftp(): a session, the transfer unless the image is present, then the MD5 check. */
  function UploadVerdict(connected: bool, present: bool, totalFree: int, size: nat, fileSystem: string,
                         r: DeviceReplies): Verdict
  {
    if !connected then Skip(FailConnect, "Unable to connect to the device")
    else Then(if present then Pass else TransferVerdict(totalFree, size, fileSystem, r), Md5Verdict(r.md5))
  }

  /** An upload never drops a task and never breaks: each refusal is a skip. */
  lemma UploadOnlySkips(connected: bool, present: bool, totalFree: int, size: nat, fileSystem: string, r: DeviceReplies)
    ensures var v := UploadVerdict(connected, present, totalFree, size, fileSystem, r);
      v.Pass? || v.Skip?
  {
  }

  /** Too little space stops the upload with fail-upload, whatever the device would answer next. */
  lemma NoSpaceSkipsUpload(present: bool, totalFree: int, size: nat, fileSystem: string, r: DeviceReplies)
    requires !present && totalFree < SpaceNeeded(size)
    ensures UploadVerdict(true, present, totalFree, size, fileSystem, r)
         == Skip(FailUpload, "No enough space on " + fileSystem)
  {
  }

  /** With the image present there is no space check and no transfer: only the MD5 reply matters. */
  lemma PresentImageSkipsTransfer(totalFree: int, size: nat, fileSystem: string, r: DeviceReplies)
    ensures UploadVerdict(true, true, totalFree, size, fileSystem, r) == Md5Verdict(r.md5)
  {
  }

  // ---------------------------------------------------------------- reload

  /** The versions are compared ignoring case (both upper-cased). */
  predicate VersionMatches(current: string, target: string) {
    Upper(current) == Upper(target)
  }

  /** The version the device reports before the reload. */
  function CurrentVersion(info: BootInfo): string
    requires info.versions != []
  {
    VersionOf(info.versions[0])
  }

  /** The configuration is saved when the output contains "[OK]". */
  function SavedVerdict(result: string): Verdict {
    if Contains(result, "[OK]") then Pass else Drop(FailUpgrade, "Can not save config")
  }

  /** "write memory", with the interactive form after a timeout or a closed connection. */
  function WriteVerdict(w: WriteReply): Verdict {
    match w
    case Saved(result) => SavedVerdict(result)
    case Prompted(reopened, i) =>
      if !reopened then Broken
      else match i
        case Answered(result) => SavedVerdict(result)
        case TimedOut => Drop(FailUpgrade, "Unable to write memory: ScrapliTimeout")
        case ConnectionLost => Drop(FailUpgrade, "Unable to write memory: ScrapliTimeout")
  }

  /** "reload in 1": only a timeout is caught; a closed connection is an untyped error. */
  function ReloadRequestVerdict(i: Interactive): Verdict {
    match i
    case Answered(_) => Pass
    case TimedOut => Drop(FailUpgrade, "Unable to reload: ScrapliTimeout")
    case ConnectionLost => Broken
  }

  /** From the boot variable change on: change it, save, request the reload. */
  function ChangeVerdict(r: DeviceReplies): Verdict {
    if r.bootvar.failed then Drop(FailUpgrade, "Unable to change bootvar")
    else Then(WriteVerdict(r.writeBefore), ReloadRequestVerdict(r.reload))
  }

  /** Everything device_reload() checks before it changes the boot variable passed. */
  predicate ReachesBootChange(connected: bool, info: BootInfo, target: string, present: bool, md5: Reply) {
    connected && !info.failed && info.versions != [] && !VersionMatches(CurrentVersion(info), target)
    && present && Md5Verdict(md5).Pass?
  }

  /** What device_reload() checks before the MD5 check: the outputs, a parsed
      version that differs from the target, and the image on the box. */
  function BootGateVerdict(info: BootInfo, target: string, present: bool): Verdict {
    if info.failed then Skip(FailUpgrade, "Can not collect outputs for upgrade")
    else if info.versions == [] then Broken
    else if VersionMatches(CurrentVersion(info), target) then
      Skip(FailUpgrade, "Current version " + CurrentVersion(info) + " matches with target " + target)
    else if !present then Skip(FailUpgrade, "No target image on the box")
    else Pass
  }

  /** device_reload(): a session, the gate, the MD5 check, then the change. */
  function ReloadVerdict(connected: bool, info: BootInfo, target: string, present: bool, r: DeviceReplies): Verdict {
    if !connected then Skip(FailConnect, "Unable to connect to the device")
    else Then(BootGateVerdict(info, target, present), Then(Md5Verdict(r.md5), ChangeVerdict(r)))
  }

  /** The skip/fail boundary: before the boot variable change device_reload()
      only skips; from the change on it only fails (drops) the task. */
  lemma ReloadBoundary(connected: bool, info: BootInfo, target: string, present: bool, r: DeviceReplies)
    ensures var v := ReloadVerdict(connected, info, target, present, r);
      && (v.Skip? ==> !ReachesBootChange(connected, info, target, present, r.md5))
      && (v.Drop? ==> ReachesBootChange(connected, info, target, present, r.md5) && v.reason == FailUpgrade)
      && (ReachesBootChange(connected, info, target, present, r.md5) ==> v == ChangeVerdict(r))
  {
  }

  /** A device already on the target version is skipped with fail-upgrade, whatever it would answer later. */
  lemma SameVersionSkips(info: BootInfo, target: string, present: bool, r: DeviceReplies)
    requires !info.failed && info.versions != [] && VersionMatches(CurrentVersion(info), target)
    ensures ReloadVerdict(true, info, target, present, r)
         == Skip(FailUpgrade, "Current version " + CurrentVersion(info) + " matches with target " + target)
  {
  }

  /** The new boot lines: "no " before each old line, then the target, then the first old line again. */
  function BootLines(oldLines: seq<string>, fileSystem: string, image: string): seq<string> {
    Negated(oldLines) + ["boot system " + fileSystem + "/" + image]
    + (if |oldLines| > 0 then [oldLines[0]] else [])
  }

  /** "no " + line for each line, in order. */
  function Negated(lines: seq<string>): seq<string> {
    if lines == [] then [] else Negated(lines[..|lines| - 1]) + ["no " + lines[|lines| - 1]]
  }

  lemma {:induction false} NegatedAt(lines: seq<string>)
    ensures |Negated(lines)| == |lines|
    ensures forall i :: 0 <= i < |lines| ==> Negated(lines)[i] == "no " + lines[i]
  {
    if lines != [] {
      NegatedAt(lines[..|lines| - 1]);
    }
  }

  /** The exact boot line list and its length n + 1 + (1 if n > 0). */
  lemma BootLinesShape(oldLines: seq<string>, fileSystem: string, image: string)
    ensures var b := BootLines(oldLines, fileSystem, image); var n := |oldLines|;
      && |b| == n + 1 + (if n > 0 then 1 else 0)
      && (forall i :: 0 <= i < n ==> b[i] == "no " + oldLines[i])
      && b[n] == "boot system " + fileSystem + "/" + image
      && (n > 0 ==> b[n + 1] == oldLines[0])
  {
    NegatedAt(oldLines);
  }

  // ---------------------------------------------------------------- after the reload

  /** How many probes the post-reload loop makes: up to n, stopping at the first answer. */
  function LoopProbes(r: DeviceReplies, cursor: nat, n: nat): nat
    decreases n
  {
    if n == 0 then 0
    else if Alive(ProbeAt(r, cursor)) then 1
    else 1 + LoopProbes(r, cursor + 1, n - 1)
  }

  lemma {:induction false} LoopProbesBounds(r: DeviceReplies, cursor: nat, n: nat)
    ensures LoopProbes(r, cursor, n) <= n
    ensures n > 0 ==> LoopProbes(r, cursor, n) >= 1
    decreases n
  {
    if n > 0 && !Alive(ProbeAt(r, cursor)) {
      LoopProbesBounds(r, cursor + 1, n - 1);
    }
  }

  /** The loop leaves at the first probe that answers. */
  lemma {:induction false} LoopStopsAtFirstAnswer(r: DeviceReplies, cursor: nat, n: nat, k: nat)
    requires k < n && Alive(ProbeAt(r, cursor + k))
    requires forall j: nat :: cursor <= j < cursor + k ==> !Alive(ProbeAt(r, j))
    ensures LoopProbes(r, cursor, n) == k + 1
    decreases k
  {
    if k > 0 {
      assert !Alive(ProbeAt(r, cursor));
      LoopStopsAtFirstAnswer(r, cursor + 1, n - 1, k - 1);
    }
  }

  /** A device that never answers is probed n times by the loop (and once more after it). */
  lemma {:induction false} SilentDeviceExhaustsLoop(r: DeviceReplies, cursor: nat, n: nat)
    requires forall j: nat :: cursor <= j < cursor + n ==> !Alive(ProbeAt(r, j))
    ensures LoopProbes(r, cursor, n) == n
    decreases n
  {
    if n > 0 {
      assert !Alive(ProbeAt(r, cursor));
      SilentDeviceExhaustsLoop(r, cursor + 1, n - 1);
    }
  }

  /** post_check(): a session, the version output, then saving the configuration; every refusal drops the task. */
  function PostCheckVerdict(connected: bool, info: VersionInfo, w: WriteReply): Verdict {
    if !connected then Drop(FailConnect, "Unable to connect to the device")
    else if info.failed then Drop(FailUpgrade, "Can not collect outputs for post-chech")
    else if info.versions == [] then Broken
    else WriteVerdict(w)
  }

  lemma PostCheckNeverSkips(connected: bool, info: VersionInfo, w: WriteReply)
    ensures !PostCheckVerdict(connected, info, w).Skip?
  {
  }

  // ---------------------------------------------------------------- command texts

  const InventoryCommands: seq<string> := ["show version", "dir /all"]
  const PrepareConfig: seq<string> := ["file prompt quiet", "line vty 0 15", "exec-timeout 180 0"]
  const UndoConfig: seq<string> := ["no file prompt quiet", "line vty 0 15", "exec-timeout 30 0"]
  const BootCommands: seq<string> := ["show run | i boot system", "show version"]
  const PostCommands: seq<string> := ["show version"]
  const WriteDialog: seq<(string, string)> := [("write", "[confirm]"), ("\n", "#")]
  const ReloadDialog: seq<(string, string)> := [("reload in 1", "[confirm]"), ("\n", "#")]

  function CopyCommand(s: Settings, image: string, fileSystem: string): string {
    "copy ftp://" + s.ftpUsername + ":" + s.ftpPassword + "@" + s.ftpServer + "/" + image
    + " " + fileSystem + "/" + image
  }

  /** The device-side check; the expected hash is part of the command. */
  function Md5Command(fileSystem: string, image: string, md5sum: string): string {
    "verify /md5 " + fileSystem + "/" + image + " " + md5sum
  }

  // ---------------------------------------------------------------- what is sent

  /** "write memory", and the interactive form when the session was opened again. */
  function WriteSent(w: WriteReply): seq<Sent> {
    [Command("write memory")] + (if w.Prompted? && w.reopened then [Dialog(WriteDialog)] else [])
  }

  /** The commands of the transfer's first half: the preparing configuration once there is space. */
  function PrepareSent(totalFree: int, size: nat): seq<Sent> {
    if totalFree < SpaceNeeded(size) then [] else [Config(PrepareConfig)]
  }

  /** The commands of the second half: the copy, and the rollback unless the copy failed. */
  function CopySent(s: Settings, image: string, fileSystem: string, r: DeviceReplies): seq<Sent> {
    [Command(CopyCommand(s, image, fileSystem))]
    + (if r.copy.failed || !Contains(r.copy.result, "OK") then [] else [Config(UndoConfig)])
  }

  /** The transfer's commands, up to the first one that fails. */
  function TransferSent(totalFree: int, size: nat, s: Settings, image: string, fileSystem: string,
                        r: DeviceReplies): seq<Sent>
  {
    PrepareSent(totalFree, size)
    + (if PrepareVerdict(totalFree, size, fileSystem, r).Pass? then CopySent(s, image, fileSystem, r) else [])
  }

  /** A completed transfer sent exactly the preparation, the copy and the rollback. */
  lemma TransferSendsThree(totalFree: int, size: nat, s: Settings, image: string, fileSystem: string, r: DeviceReplies)
    requires TransferVerdict(totalFree, size, fileSystem, r).Pass?
    ensures TransferSent(totalFree, size, s, image, fileSystem, r)
         == [Config(PrepareConfig), Command(CopyCommand(s, image, fileSystem)), Config(UndoConfig)]
  {
  }

  /** Everything file_upload_ftp() sends. */
  function UploadSent(connected: bool, present: bool, totalFree: int, size: nat, fileSystem: string,
                      s: Settings, image: string, md5sum: string, r: DeviceReplies): seq<Sent>
  {
    var md5 := Command(Md5Command(fileSystem, image, md5sum));
    if !connected then []
    else if present then [md5]
    else if TransferVerdict(totalFree, size, fileSystem, r).Pass? then
      TransferSent(totalFree, size, s, image, fileSystem, r) + [md5]
    else TransferSent(totalFree, size, s, image, fileSystem, r)
  }

  /** What device_reload() sends from the boot variable change on. */
  function ChangeSent(oldLines: seq<string>, fileSystem: string, image: string, r: DeviceReplies): seq<Sent> {
    var boot := Config(BootLines(oldLines, fileSystem, image));
    if r.bootvar.failed then [boot]
    else if WriteVerdict(r.writeBefore).Pass? then [boot] + WriteSent(r.writeBefore) + [Dialog(ReloadDialog)]
    else [boot] + WriteSent(r.writeBefore)
  }

  /** Everything device_reload() sends. */
  function ReloadSent(connected: bool, info: BootInfo, version: string, present: bool, fileSystem: string,
                      image: string, md5sum: string, r: DeviceReplies): seq<Sent>
  {
    var md5 := Command(Md5Command(fileSystem, image, md5sum));
    if !connected then []
    else if !BootGateVerdict(info, version, present).Pass? then [Commands(BootCommands)]
    else if !Md5Verdict(r.md5).Pass? then [Commands(BootCommands), md5]
    else [Commands(BootCommands), md5] + ChangeSent(info.bootLines, fileSystem, image, r)
  }

  /** Everything post_check() sends. */
  function PostSent(connected: bool, info: VersionInfo, w: WriteReply): seq<Sent> {
    if !connected then []
    else [Commands(PostCommands)] + (if info.failed || info.versions == [] then [] else WriteSent(w))
  }

  /** Too little space: nothing at all is sent, neither configuration nor copy nor MD5 check. */
  lemma NoSpaceSendsNothing(totalFree: int, size: nat, fileSystem: string, s: Settings, image: string,
                            md5sum: string, r: DeviceReplies)
    requires totalFree < SpaceNeeded(size)
    ensures UploadSent(true, false, totalFree, size, fileSystem, s, image, md5sum, r) == []
  {
  }

  /** An image already on the device is only checked. */
  lemma PresentImageOnlyChecked(totalFree: int, size: nat, fileSystem: string, s: Settings, image: string,
                                md5sum: string, r: DeviceReplies)
    ensures UploadSent(true, true, totalFree, size, fileSystem, s, image, md5sum, r)
         == [Command(Md5Command(fileSystem, image, md5sum))]
  {
  }

  /** A device on the target version gets no configuration: only the two show commands are sent. */
  lemma SameVersionSendsNoConfig(info: BootInfo, version: string, present: bool, fileSystem: string,
                                 image: string, md5sum: string, r: DeviceReplies)
    requires !info.failed && info.versions != [] && VersionMatches(CurrentVersion(info), version)
    ensures ReloadSent(true, info, version, present, fileSystem, image, md5sum, r) == [Commands(BootCommands)]
  {
  }

  /** device_reload() drops a task only after the new boot lines were sent. */
  lemma ReloadDropFollowsBootChange(connected: bool, info: BootInfo, version: string, present: bool,
                                    fileSystem: string, image: string, md5sum: string, r: DeviceReplies)
    requires !ReloadVerdict(connected, info, version, present, r).Skip?
             && !ReloadVerdict(connected, info, version, present, r).Broken?
    ensures Config(BootLines(info.bootLines, fileSystem, image))
            in ReloadSent(connected, info, version, present, fileSystem, image, md5sum, r)
  {
    ReloadBoundary(connected, info, version, present, r);
    var sent := ReloadSent(connected, info, version, present, fileSystem, image, md5sum, r);
    assert sent[2] == Config(BootLines(info.bootLines, fileSystem, image));
  }

  /** The version custom field written by device_reload(): the current version, when it already matches. */
  function ReloadFieldWrite(connected: bool, info: BootInfo, version: string): Option<string> {
    if connected && !info.failed && info.versions != [] && VersionMatches(CurrentVersion(info), version)
    then Some(CurrentVersion(info)) else None
  }

  /** The version custom field written by post_check(): the new version, once the configuration is saved. */
  function PostFieldWrite(connected: bool, info: VersionInfo, w: WriteReply): Option<string> {
    if connected && !info.failed && info.versions != [] && WriteVerdict(w).Pass?
    then Some(VersionOf(info.versions[0])) else None
  }

  // ---------------------------------------------------------------- one whole run

  /** What the executor reads of the golden image's software image. */
  datatype ImageFacts = ImageFacts(attached: bool, filename: string, path: string, size: nat, md5sum: string,
                                   version: string)

  /** What the executor reads of its task record, the device and its type. */
  datatype TaskFacts = TaskFacts(
    jobId: string,
    taskType: TaskType,
    start: Option<int>,
    scheduled: Option<int>,
    mw: Option<nat>,
    name: string,
    serial: string,
    ip: string,
    model: string,
    golden: bool,
    image: Option<ImageFacts>)

  /** The target file name: the image's stored filename, when an image with a file is bound. */
  function TargetOf(f: TaskFacts): Option<string> {
    if f.image.Some? && f.image.value.attached then Some(f.image.value.filename) else None
  }

  /** The verdict for a device that answered on neither port. */
  function NotReachable(f: TaskFacts): Verdict {
    Skip(FailConnect, "Device " + f.name + ":" + f.ip + " is not reachable")
  }

  const LostAfterReload: Verdict := Drop(FailUpgrade, "Device was lost after reload")

  /** The start of execute_task(): check(), then one liveness probe at probe cursor q0. */
  function AdmitVerdict(f: TaskFacts, r: DeviceReplies, s: Settings, counts: QueueCounts, q0: nat): Verdict {
    Then(CheckVerdict(f.model, f.golden, f.start, f.scheduled, f.mw, f.taskType, counts, s.threshold), if Alive(ProbeAt(r, q0)) then Pass else NotReachable(f))
  }

  /** The task's verdict from its facts, the settings, the queue counts, the
      device's answers and where the run starts: port p0, open cursor c0,
      probe cursor q0. */
  function RunVerdict(f: TaskFacts, r: DeviceReplies, s: Settings, counts: QueueCounts, p0: int, c0: nat, q0: nat): Verdict
  {
    var admission := AdmitVerdict(f, r, s, counts, q0);
    if !admission.Pass? then admission else AdmittedVerdict(f, r, s, p0, c0, q0 + 1)
  }

  /** The run after a passed admission: check_device() from port p0 and open
      cursor c0, then the work stage with probe cursor q1. */
  function AdmittedVerdict(f: TaskFacts, r: DeviceReplies, s: Settings, p0: int, c0: nat, q1: nat): Verdict {
    var validation := DeviceCheckVerdict(ConnectSucceeds(r, p0, c0), r.inventory, f.model, f.serial, TargetOf(f));
    if !validation.Pass? then validation
    else WorkVerdict(f, r, s, PortAfterConnect(r, p0, c0), c0 + |ConnectPorts(r, p0, c0)|, q1)
  }

  /** The upload, or the reload, the wait and the post-check, after a successful validation. */
  function WorkVerdict(f: TaskFacts, r: DeviceReplies, s: Settings, p1: int, c1: nat, q1: nat): Verdict
    requires r.inventory.files != [] && TargetOf(f).Some?
  {
    var file := r.inventory.files[0];
    var fs := Strip(file.fileSystem, '/');
    var present := FilesNamed(r.inventory.files, TargetOf(f).value) != [];
    var connected := ConnectSucceeds(r, p1, c1);
    match f.taskType
    case Upload => UploadVerdict(connected, present, file.totalFree, f.image.value.size, fs, r)
    case Upgrade => UpgradeVerdict(f.image.value, present, r, s, p1, c1, q1)
  }

  /** An upgrade's work: device_reload() from port p1 and open cursor c1, and
      after a passed reload the wait and the post-check from probe cursor q1. */
  function UpgradeVerdict(img: ImageFacts, present: bool, r: DeviceReplies, s: Settings, p1: int, c1: nat, q1: nat): Verdict {
    var reload := ReloadVerdict(ConnectSucceeds(r, p1, c1), r.bootInfo, img.version, present, r);
    if !reload.Pass? then reload
    else AfterReloadVerdict(r, s, PortAfterConnect(r, p1, c1), c1 + |ConnectPorts(r, p1, c1)|, q1)
  }

  function UpgradeSent(img: ImageFacts, present: bool, fs: string, image: string, r: DeviceReplies, s: Settings,
                       p1: int, c1: nat, q1: nat): seq<Sent>
  {
    var connected := ConnectSucceeds(r, p1, c1);
    ReloadSent(connected, r.bootInfo, img.version, present, fs, image, img.md5sum, r)
    + (if !ReloadVerdict(connected, r.bootInfo, img.version, present, r).Pass? then []
       else AfterReloadSent(r, s, PortAfterConnect(r, p1, c1), c1 + |ConnectPorts(r, p1, c1)|, q1))
  }

  function UpgradeFieldWrite(img: ImageFacts, present: bool, r: DeviceReplies, s: Settings, p1: int, c1: nat, q1: nat)
    : Option<string>
  {
    var connected := ConnectSucceeds(r, p1, c1);
    var reload := ReloadVerdict(connected, r.bootInfo, img.version, present, r);
    if !reload.Pass? then ReloadFieldWrite(connected, r.bootInfo, img.version)
    else AfterReloadFieldWrite(r, s, PortAfterConnect(r, p1, c1), c1 + |ConnectPorts(r, p1, c1)|, q1)
  }

  /** The wait after the reload and the post-check, from port p, open cursor c
      and probe cursor q: the device must answer the probe after the loop. */
  function AfterReloadVerdict(r: DeviceReplies, s: Settings, p: int, c: nat, q: nat): Verdict {
    if !Alive(ProbeAt(r, q + LoopProbes(r, q, s.maxAttempts))) then LostAfterReload
    else PostCheckVerdict(ConnectSucceeds(r, p, c), r.postVersion, r.writeAfter)
  }

  function AfterReloadSent(r: DeviceReplies, s: Settings, p: int, c: nat, q: nat): seq<Sent> {
    if !Alive(ProbeAt(r, q + LoopProbes(r, q, s.maxAttempts))) then []
    else PostSent(ConnectSucceeds(r, p, c), r.postVersion, r.writeAfter)
  }

  function AfterReloadFieldWrite(r: DeviceReplies, s: Settings, p: int, c: nat, q: nat): Option<string> {
    if !Alive(ProbeAt(r, q + LoopProbes(r, q, s.maxAttempts))) then None
    else PostFieldWrite(ConnectSucceeds(r, p, c), r.postVersion, r.writeAfter)
  }

  /** Everything one run sends to the device, in order. */
  function RunSent(f: TaskFacts, r: DeviceReplies, s: Settings, counts: QueueCounts, p0: int, c0: nat, q0: nat): seq<Sent>
  {
    if !AdmitVerdict(f, r, s, counts, q0).Pass? then [] else AdmittedSent(f, r, s, p0, c0, q0 + 1)
  }

  function AdmittedSent(f: TaskFacts, r: DeviceReplies, s: Settings, p0: int, c0: nat, q1: nat): seq<Sent> {
    var connected := ConnectSucceeds(r, p0, c0);
    var inventory := if connected then [Commands(InventoryCommands)] else [];
    var validation := DeviceCheckVerdict(connected, r.inventory, f.model, f.serial, TargetOf(f));
    if !validation.Pass? then inventory
    else inventory + WorkSent(f, r, s, PortAfterConnect(r, p0, c0), c0 + |ConnectPorts(r, p0, c0)|, q1)
  }

  function WorkSent(f: TaskFacts, r: DeviceReplies, s: Settings, p1: int, c1: nat, q1: nat): seq<Sent>
    requires r.inventory.files != [] && TargetOf(f).Some?
  {
    var file := r.inventory.files[0];
    var fs := Strip(file.fileSystem, '/');
    var image := TargetOf(f).value;
    var present := FilesNamed(r.inventory.files, image) != [];
    var connected := ConnectSucceeds(r, p1, c1);
    match f.taskType
    case Upload => UploadSent(connected, present, file.totalFree, f.image.value.size, fs, s, image, f.image.value.md5sum, r)
    case Upgrade => UpgradeSent(f.image.value, present, fs, image, r, s, p1, c1, q1)
  }

  /** The value one run writes to the version custom field, if any. */
  function RunFieldWrite(f: TaskFacts, r: DeviceReplies, s: Settings, counts: QueueCounts, p0: int, c0: nat, q0: nat): Option<string>
  {
    if !AdmitVerdict(f, r, s, counts, q0).Pass? then None else AdmittedFieldWrite(f, r, s, p0, c0, q0 + 1)
  }

  function AdmittedFieldWrite(f: TaskFacts, r: DeviceReplies, s: Settings, p0: int, c0: nat, q1: nat): Option<string> {
    if !DeviceCheckVerdict(ConnectSucceeds(r, p0, c0), r.inventory, f.model, f.serial, TargetOf(f)).Pass? then None
    else WorkFieldWrite(f, r, s, PortAfterConnect(r, p0, c0), c0 + |ConnectPorts(r, p0, c0)|, q1)
  }

  /** The version field write of the work stage: only an upgrade writes it. */
  function WorkFieldWrite(f: TaskFacts, r: DeviceReplies, s: Settings, p1: int, c1: nat, q1: nat): Option<string>
    requires r.inventory.files != [] && TargetOf(f).Some?
  {
    var present := FilesNamed(r.inventory.files, TargetOf(f).value) != [];
    match f.taskType
    case Upload => None
    case Upgrade => UpgradeFieldWrite(f.image.value, present, r, s, p1, c1, q1)
  }

  /** Past a passed validation, the admitted run is its work stage. */
  lemma AdmittedReachesWork(f: TaskFacts, r: DeviceReplies, s: Settings, p0: int, c0: nat, q1: nat)
    requires DeviceCheckVerdict(ConnectSucceeds(r, p0, c0), r.inventory, f.model, f.serial, TargetOf(f)).Pass?
    ensures r.inventory.files != [] && TargetOf(f).Some?
    ensures AdmittedVerdict(f, r, s, p0, c0, q1)
         == WorkVerdict(f, r, s, PortAfterConnect(r, p0, c0), c0 + |ConnectPorts(r, p0, c0)|, q1)
  {
  }

  lemma AdmittedSendsWork(f: TaskFacts, r: DeviceReplies, s: Settings, p0: int, c0: nat, q1: nat)
    requires DeviceCheckVerdict(ConnectSucceeds(r, p0, c0), r.inventory, f.model, f.serial, TargetOf(f)).Pass?
    ensures r.inventory.files != [] && TargetOf(f).Some?
    ensures AdmittedSent(f, r, s, p0, c0, q1)
         == [Commands(InventoryCommands)] + WorkSent(f, r, s, PortAfterConnect(r, p0, c0), c0 + |ConnectPorts(r, p0, c0)|, q1)
  {
    assert ConnectSucceeds(r, p0, c0);
  }

  lemma AdmittedWritesWork(f: TaskFacts, r: DeviceReplies, s: Settings, p0: int, c0: nat, q1: nat)
    requires DeviceCheckVerdict(ConnectSucceeds(r, p0, c0), r.inventory, f.model, f.serial, TargetOf(f)).Pass?
    ensures r.inventory.files != [] && TargetOf(f).Some?
    ensures AdmittedFieldWrite(f, r, s, p0, c0, q1)
         == WorkFieldWrite(f, r, s, PortAfterConnect(r, p0, c0), c0 + |ConnectPorts(r, p0, c0)|, q1)
  {
  }

  lemma UploadWorkNeverFails(f: TaskFacts, r: DeviceReplies, s: Settings, p1: int, c1: nat, q1: nat)
    requires f.taskType == Upload
    requires r.inventory.files != [] && TargetOf(f).Some?
    ensures !WorkVerdict(f, r, s, p1, c1, q1).Drop?
  {
    var file := r.inventory.files[0];
    UploadOnlySkips(ConnectSucceeds(r, p1, c1), FilesNamed(r.inventory.files, TargetOf(f).value) != [],
                    file.totalFree, f.image.value.size, Strip(file.fileSystem, '/'), r);
  }

  /** An upload task is never dropped: it ends passed, skipped or broken. */
  lemma UploadTaskNeverFails(f: TaskFacts, r: DeviceReplies, s: Settings, counts: QueueCounts, p0: int, c0: nat, q0: nat)
    requires f.taskType == Upload
    ensures !RunVerdict(f, r, s, counts, p0, c0, q0).Drop?
  {
    if RunVerdict(f, r, s, counts, p0, c0, q0).Drop? {
      FailureFollowsBootChange(f, r, s, counts, p0, c0, q0);
    }
  }

  /** Only an upgrade task writes the version custom field. */
  lemma UploadTaskWritesNoField(f: TaskFacts, r: DeviceReplies, s: Settings, counts: QueueCounts, p0: int, c0: nat, q0: nat)
    requires f.taskType == Upload
    ensures RunFieldWrite(f, r, s, counts, p0, c0, q0) == None
  {
  }

  /** A refused admission ends the run before anything reaches the device:
      either check() refused, or it passed and the device answered on neither
      port. */
  lemma RefusedAdmissionSendsNothing(f: TaskFacts, r: DeviceReplies, s: Settings, counts: QueueCounts, p0: int, c0: nat, q0: nat)
    requires !AdmitVerdict(f, r, s, counts, q0).Pass?
    ensures var check := CheckVerdict(f.model, f.golden, f.start, f.scheduled, f.mw, f.taskType, counts, s.threshold);
      && (!check.Pass? ==> RunVerdict(f, r, s, counts, p0, c0, q0) == check)
      && (check.Pass? ==> !Alive(ProbeAt(r, q0)) && RunVerdict(f, r, s, counts, p0, c0, q0) == NotReachable(f))
    ensures RunSent(f, r, s, counts, p0, c0, q0) == []
    ensures RunFieldWrite(f, r, s, counts, p0, c0, q0) == None
  {
  }

  /** An upgrade's work starts with device_reload()'s commands. */
  lemma UpgradeWorkSendsReloadFirst(f: TaskFacts, r: DeviceReplies, s: Settings, p1: int, c1: nat, q1: nat)
    requires f.taskType == Upgrade && r.inventory.files != [] && TargetOf(f).Some?
    ensures ReloadSent(ConnectSucceeds(r, p1, c1), r.bootInfo, f.image.value.version,
                       FilesNamed(r.inventory.files, TargetOf(f).value) != [],
                       Strip(r.inventory.files[0].fileSystem, '/'), TargetOf(f).value, f.image.value.md5sum, r)
            <= WorkSent(f, r, s, p1, c1, q1)
  {
  }

  /** An upgrade's work drops only where device_reload() itself drops or passes. */
  lemma UpgradeWorkDropNeedsReload(f: TaskFacts, r: DeviceReplies, s: Settings, p1: int, c1: nat, q1: nat)
    requires f.taskType == Upgrade && r.inventory.files != [] && TargetOf(f).Some?
    requires WorkVerdict(f, r, s, p1, c1, q1).Drop?
    ensures var v := ReloadVerdict(ConnectSucceeds(r, p1, c1), r.bootInfo, f.image.value.version,
                                   FilesNamed(r.inventory.files, TargetOf(f).value) != [], r);
      v.Pass? || v.Drop?
  {
  }

  lemma UpgradeWorkFailsAfterBootChange(f: TaskFacts, r: DeviceReplies, s: Settings, p1: int, c1: nat, q1: nat)
    requires f.taskType == Upgrade && r.inventory.files != [] && TargetOf(f).Some?
    requires WorkVerdict(f, r, s, p1, c1, q1).Drop?
    ensures Config(BootLines(r.bootInfo.bootLines, Strip(r.inventory.files[0].fileSystem, '/'), TargetOf(f).value))
            in WorkSent(f, r, s, p1, c1, q1)
  {
    var fs := Strip(r.inventory.files[0].fileSystem, '/');
    var image := TargetOf(f).value;
    var present := FilesNamed(r.inventory.files, image) != [];
    var connected := ConnectSucceeds(r, p1, c1);
    var version := f.image.value.version;
    UpgradeWorkDropNeedsReload(f, r, s, p1, c1, q1);
    ReloadDropFollowsBootChange(connected, r.bootInfo, version, present, fs, image, f.image.value.md5sum, r);
    UpgradeWorkSendsReloadFirst(f, r, s, p1, c1, q1);
    PrefixKeepsMembers(ReloadSent(connected, r.bootInfo, version, present, fs, image, f.image.value.md5sum, r),
                       WorkSent(f, r, s, p1, c1, q1), Config(BootLines(r.bootInfo.bootLines, fs, image)));
  }

  lemma PrefixKeepsMembers(a: seq<Sent>, b: seq<Sent>, x: Sent)
    requires a <= b && x in a
    ensures x in b
  {
    var k :| 0 <= k < |a| && a[k] == x;
    assert b[k] == x;
  }

  /** Admission never drops a task: a refusal is a skip for a failed check or an unreachable device. */
  lemma AdmissionNeverFails(f: TaskFacts, r: DeviceReplies, s: Settings, counts: QueueCounts, q0: nat)
    ensures var v := AdmitVerdict(f, r, s, counts, q0);
      !v.Drop? && (v.Skip? ==> v.reason == FailCheck || v.reason == FailConnect)
  {
    CheckOnlySkipsWithFailCheck(f.model, f.golden, f.start, f.scheduled, f.mw, f.taskType, counts, s.threshold);
  }

  /** Validation never drops a task, so a dropped admitted run was dropped in its work stage. */
  lemma AdmittedDropIsWorkDrop(f: TaskFacts, r: DeviceReplies, s: Settings, p0: int, c0: nat, q1: nat)
    requires AdmittedVerdict(f, r, s, p0, c0, q1).Drop?
    ensures DeviceCheckVerdict(ConnectSucceeds(r, p0, c0), r.inventory, f.model, f.serial, TargetOf(f)).Pass?
    ensures r.inventory.files != [] && TargetOf(f).Some?
    ensures WorkVerdict(f, r, s, PortAfterConnect(r, p0, c0), c0 + |ConnectPorts(r, p0, c0)|, q1).Drop?
  {
    DeviceCheckPolicy(ConnectSucceeds(r, p0, c0), r.inventory, f.model, f.serial, TargetOf(f));
    AdmittedReachesWork(f, r, s, p0, c0, q1);
  }

  /** After admission, a task is dropped only in an upgrade whose new boot lines were sent. */
  lemma AdmittedFailureFollowsBootChange(f: TaskFacts, r: DeviceReplies, s: Settings, p0: int, c0: nat, q1: nat)
    requires AdmittedVerdict(f, r, s, p0, c0, q1).Drop?
    ensures f.taskType == Upgrade
    ensures r.inventory.files != [] && TargetOf(f).Some?
    ensures Config(BootLines(r.bootInfo.bootLines, Strip(r.inventory.files[0].fileSystem, '/'), TargetOf(f).value))
            in AdmittedSent(f, r, s, p0, c0, q1)
  {
    AdmittedDropIsWorkDrop(f, r, s, p0, c0, q1);
    var p1, c1 := PortAfterConnect(r, p0, c0), c0 + |ConnectPorts(r, p0, c0)|;
    WorkFailsAfterBootChange(f, r, s, p1, c1, q1);
    AdmittedSendsWork(f, r, s, p0, c0, q1);
  }

  /** A dropped work stage is an upgrade's, after its new boot lines were sent. */
  lemma WorkFailsAfterBootChange(f: TaskFacts, r: DeviceReplies, s: Settings, p1: int, c1: nat, q1: nat)
    requires r.inventory.files != [] && TargetOf(f).Some?
    requires WorkVerdict(f, r, s, p1, c1, q1).Drop?
    ensures f.taskType == Upgrade
    ensures Config(BootLines(r.bootInfo.bootLines, Strip(r.inventory.files[0].fileSystem, '/'), TargetOf(f).value))
            in WorkSent(f, r, s, p1, c1, q1)
  {
    if f.taskType == Upload {
      UploadWorkNeverFails(f, r, s, p1, c1, q1);
    }
    UpgradeWorkFailsAfterBootChange(f, r, s, p1, c1, q1);
  }

  /** The executor drops a task (drop_task, which stores it failed) only if it is an upgrade task
      and its new boot lines were sent to the device. An untyped error is failed by the worker
      instead (Job.FailedJobFollowsErrorOrBootChange). */
  lemma FailureFollowsBootChange(f: TaskFacts, r: DeviceReplies, s: Settings, counts: QueueCounts, p0: int, c0: nat, q0: nat)
    requires RunVerdict(f, r, s, counts, p0, c0, q0).Drop?
    ensures f.taskType == Upgrade
    ensures r.inventory.files != [] && TargetOf(f).Some?
    ensures Config(BootLines(r.bootInfo.bootLines, Strip(r.inventory.files[0].fileSystem, '/'), TargetOf(f).value))
            in RunSent(f, r, s, counts, p0, c0, q0)
  {
    AdmissionNeverFails(f, r, s, counts, q0);
    AdmittedFailureFollowsBootChange(f, r, s, p0, c0, q0 + 1);
  }
}
