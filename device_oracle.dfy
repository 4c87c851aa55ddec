// The device as the executor meets it: every interaction is reduced to the
// answer the device (or the network) gives. Session opens and liveness probes
// can happen several times in one run, so their answers are streams consumed
// in order; every other command is sent at most once per run and has one
// reply. What the parsers (TextFSM, the PID/SN regular expressions,
// str.splitlines) extract from an output is given here already extracted.

module DeviceOracle {
  import opened Wrappers

  /** How IOSXEDriver.open() ends. */
  datatype OpenResult = Opened | AuthFailed | ConnectionClosed | OtherError

  /** One is_alive() call: whether a TCP connect to port 22, and to port 23, succeeds. */
  datatype Probe = Probe(tcp22: bool, tcp23: bool)

  /** A command or configuration reply: its failed flag and its text. */
  datatype Reply = Reply(failed: bool, result: string)

  /** One row of the parsed "dir /all" listing. */
  datatype FileEntry = FileEntry(name: string, fileSystem: string, totalFree: int)

  /** "show version" + "dir /all": the PID and SN the patterns find (if any) and the listing. */
  datatype Inventory = Inventory(failed: bool, result: string, pid: Option<string>, sn: Option<string>,
                                 files: seq<FileEntry>)

  /** "show run | i boot system" + "show version": the boot lines and the parsed
      rows of the version output (each row's version field, if it has one). */
  datatype BootInfo = BootInfo(failed: bool, result: string, bootLines: seq<string>,
                               versions: seq<Option<string>>)

  /** "show version" after the reload. */
  datatype VersionInfo = VersionInfo(failed: bool, result: string, versions: seq<Option<string>>)

  /** send_interactive: it answers, or raises ScrapliTimeout or ScrapliConnectionError. */
  datatype Interactive = Answered(result: string) | TimedOut | ConnectionLost

  /** "write memory": it returns, or it raises a timeout or connection error,
      after which the session is opened again (which may fail) and the
      interactive form is used. */
  datatype WriteReply = Saved(result: string) | Prompted(reopened: bool, interactive: Interactive)

  /** Everything the device answers during one run. */
  datatype DeviceReplies = DeviceReplies(
    opens: seq<OpenResult>,
    probes: seq<Probe>,
    inventory: Inventory,
    prepare: Reply,
    copy: Reply,
    undo: Reply,
    md5: Reply,
    bootInfo: BootInfo,
    bootvar: Reply,
    writeBefore: WriteReply,
    reload: Interactive,
    postVersion: VersionInfo,
    writeAfter: WriteReply)

  /** The answer to the i-th open attempt; past the end of the stream the device does not answer. */
  function OpenAt(r: DeviceReplies, i: nat): OpenResult {
    if i < |r.opens| then r.opens[i] else OtherError
  }

  /** The answer to the i-th is_alive call; past the end of the stream nothing answers. */
  function ProbeAt(r: DeviceReplies, i: nat): Probe {
    if i < |r.probes| then r.probes[i] else Probe(false, false)
  }

  /** is_alive() is true when either port answers. */
  predicate Alive(p: Probe) {
    p.tcp22 || p.tcp23
  }

  /** A parsed row's version, with the "N/A" default of parsed[0].get('version', 'N/A'). */
  function VersionOf(row: Option<string>): string {
    match row
    case Some(v) => v
    case None => "N/A"
  }
}
