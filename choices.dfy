// The task record's vocabularies. Each value is stored in the record as its
// literal string (the wire value); every choice set pairs each value with a
// label equal to it.

module Choices {
  import opened Wrappers

  datatype TaskType = Upload | Upgrade {
    function Value(): string {
      match this
      case Upload => "upload"
      case Upgrade => "upgrade"
    }
    /** The display label of the CHOICES pair. */
    function Label(): string {
      match this
      case Upload => "upload"
      case Upgrade => "upgrade"
    }
  }

  datatype TaskStatus = Unknown | Scheduled | Failed | Running | Succeeded | Skipped {
    function Value(): string {
      match this
      case Unknown => "unknown"
      case Scheduled => "scheduled"
      case Failed => "failed"
      case Running => "running"
      case Succeeded => "succeeded"
      case Skipped => "skipped"
    }
    function Label(): string {
      match this
      case Unknown => "unknown"
      case Scheduled => "scheduled"
      case Failed => "failed"
      case Running => "running"
      case Succeeded => "succeeded"
      case Skipped => "skipped"
    }
  }

  datatype FailReason =
    | FailUnknown | FailCheck | FailLogin | FailConfig | FailConnect
    | FailGeneral | FailAdd | FailUpgrade | FailUpload
  {
    function Value(): string {
      match this
      case FailUnknown => "fail-unknown"
      case FailCheck => "fail-check"
      case FailLogin => "fail-login"
      case FailConfig => "fail-config"
      case FailConnect => "fail-connect"
      case FailGeneral => "fail-general"
      case FailAdd => "fail-add"
      case FailUpgrade => "fail-upgrade"
      case FailUpload => "fail-upload"
    }
    function Label(): string {
      match this
      case FailUnknown => "fail-unknown"
      case FailCheck => "fail-check"
      case FailLogin => "fail-login"
      case FailConfig => "fail-config"
      case FailConnect => "fail-connect"
      case FailGeneral => "fail-general"
      case FailAdd => "fail-add"
      case FailUpgrade => "fail-upgrade"
      case FailUpload => "fail-upload"
    }
  }

  /** The transfer method of a task; only FTP exists. */
  datatype TransferMethod = Ftp {
    function Value(): string { "ftp" }
  }

  /** The CHOICES tuples, in declaration order. */
  const TaskTypes: seq<TaskType> := [Upload, Upgrade]
  const TaskStatuses: seq<TaskStatus> := [Unknown, Scheduled, Failed, Running, Succeeded, Skipped]
  const FailReasons: seq<FailReason> :=
    [FailUnknown, FailCheck, FailLogin, FailConfig, FailConnect, FailGeneral, FailAdd, FailUpgrade, FailUpload]

  /** Reading a stored wire value back into the vocabulary. */
  function ParseTaskType(s: string): (r: Option<TaskType>)
    ensures r.Some? ==> r.value.Value() == s
  {
    if s == "upload" then Some(Upload)
    else if s == "upgrade" then Some(Upgrade)
    else None
  }

  function ParseTaskStatus(s: string): (r: Option<TaskStatus>)
    ensures r.Some? ==> r.value.Value() == s
  {
    if s == "unknown" then Some(Unknown)
    else if s == "scheduled" then Some(Scheduled)
    else if s == "failed" then Some(Failed)
    else if s == "running" then Some(Running)
    else if s == "succeeded" then Some(Succeeded)
    else if s == "skipped" then Some(Skipped)
    else None
  }

  function ParseFailReason(s: string): (r: Option<FailReason>)
    ensures r.Some? ==> r.value.Value() == s
  {
    if s == "fail-unknown" then Some(FailUnknown)
    else if s == "fail-check" then Some(FailCheck)
    else if s == "fail-login" then Some(FailLogin)
    else if s == "fail-config" then Some(FailConfig)
    else if s == "fail-connect" then Some(FailConnect)
    else if s == "fail-general" then Some(FailGeneral)
    else if s == "fail-add" then Some(FailAdd)
    else if s == "fail-upgrade" then Some(FailUpgrade)
    else if s == "fail-upload" then Some(FailUpload)
    else None
  }

  /** Every task type is listed once; its label is its value, and the stored value reads back. */
  lemma TaskTypeChoices(t: TaskType)
    ensures |TaskTypes| == 2 && t in TaskTypes
    ensures t.Label() == t.Value()
    ensures ParseTaskType(t.Value()) == Some(t)
    ensures forall i, j :: 0 <= i < j < |TaskTypes| ==> TaskTypes[i].Value() != TaskTypes[j].Value()
  {
  }

  lemma TaskStatusChoices(s: TaskStatus)
    ensures |TaskStatuses| == 6 && s in TaskStatuses
    ensures s.Label() == s.Value()
    ensures ParseTaskStatus(s.Value()) == Some(s)
    ensures forall i, j :: 0 <= i < j < |TaskStatuses| ==> TaskStatuses[i].Value() != TaskStatuses[j].Value()
  {
  }

  lemma FailReasonChoices(r: FailReason)
    ensures |FailReasons| == 9 && r in FailReasons
    ensures r.Label() == r.Value()
    ensures ParseFailReason(r.Value()) == Some(r)
    ensures forall i, j :: 0 <= i < j < |FailReasons| ==> FailReasons[i].Value() != FailReasons[j].Value()
  {
  }

  /** The wire value identifies the choice: distinct choices are stored differently. */
  lemma StatusValueInjective(a: TaskStatus, b: TaskStatus)
    ensures a.Value() == b.Value() ==> a == b
  {
    TaskStatusChoices(a);
    if a.Value() == b.Value() {
      assert ParseTaskStatus(b.Value()) == Some(b) by { TaskStatusChoices(b); }
    }
  }

  lemma FailReasonValueInjective(a: FailReason, b: FailReason)
    ensures a.Value() == b.Value() ==> a == b
  {
    FailReasonChoices(a);
    if a.Value() == b.Value() {
      assert ParseFailReason(b.Value()) == Some(b) by { FailReasonChoices(b); }
    }
  }

  lemma TaskTypeValueInjective(a: TaskType, b: TaskType)
    ensures a.Value() == b.Value() ==> a == b
  {
    TaskTypeChoices(a);
    if a.Value() == b.Value() {
      assert ParseTaskType(b.Value()) == Some(b) by { TaskTypeChoices(b); }
    }
  }
}
