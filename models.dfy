// The records the executor and the worker read and write: software images,
// devices with their device type and golden image, and scheduled tasks; plus
// the deletion guard that keeps a task whose queue job has already started.
// The database is not modelled: an object's fields are its stored state, and
// save() has no further effect.

module Models {
  import opened Wrappers
  import opened Text
  import opened Choices

  /** An uploaded image descriptor. The file itself is reduced to its name
      (empty when no file is attached), its path and its size. */
  class SoftwareImage {
    var imageName: string
    var imagePath: string
    var imageSize: nat
    var md5sum: string
    var md5sumCalculated: string
    var version: string
    var filename: string

    constructor (imageName: string, imagePath: string, imageSize: nat, md5sum: string, version: string)
      ensures this.imageName == imageName && this.imagePath == imagePath && this.imageSize == imageSize
      ensures this.md5sum == md5sum && this.version == version
      ensures filename == "" && md5sumCalculated == ""
    {
      this.imageName := imageName;
      this.imagePath := imagePath;
      this.imageSize := imageSize;
      this.md5sum := md5sum;
      this.version := version;
      filename := "";
      md5sumCalculated := "";
    }

    /** image_exists: a file is attached when its name is not empty. */
    predicate ImageExists()
      reads this
    {
      imageName != ""
    }

    /** __str__: the file's base name, or "{version} (no image)". */
    function ToString(): (s: string)
      reads this
      ensures ImageExists() ==> '/' !in s && |s| <= |imageName| && imageName[|imageName| - |s|..] == s
      ensures ImageExists() && '/' !in imageName ==> s == imageName
      ensures ImageExists() ==> |s| == |imageName| || imageName[|imageName| - |s| - 1] == '/'
      ensures !ImageExists() ==> s == version + " (no image)"
    {
      if ImageExists() then BaseName(imageName) else version + " (no image)"
    }

    /** save(): with no file, filename and both checksums are cleared; with a
        file, filename becomes the file's base name, md5sum_calculated the
        digest of its content (computed outside the model) and md5sum stays. */
    method Save(digest: string)
      modifies this`filename, this`md5sum, this`md5sumCalculated
      ensures !ImageExists() ==> filename == "" && md5sum == "" && md5sumCalculated == ""
      ensures ImageExists() ==>
        filename == BaseName(imageName) && md5sum == old(md5sum) && md5sumCalculated == digest
      ensures ImageExists() ==> ToString() == filename
    {
      if !ImageExists() {
        filename := "";
        md5sumCalculated := "";
        md5sum := "";
        return;
      }
      filename := BaseName(imageName);
      md5sumCalculated := digest;
    }
  }

  /** name.rsplit("/", 1)[-1]: what follows the last "/", or the whole name. */
  function BaseName(name: string): (r: string)
    ensures '/' !in r
    ensures |r| <= |name| && name[|name| - |r|..] == r
    ensures |r| == |name| || name[|name| - |r| - 1] == '/'
    ensures '/' !in name ==> r == name
  {
    AfterLast(name, '/')
  }

  /** The golden image binding of a device type; its software image may be unset. */
  datatype GoldenImage = GoldenImage(sw: SoftwareImage?)

  /** A device type: its model key and, when one exists, its golden image. */
  datatype DeviceType = DeviceType(model: string, goldenImage: Option<GoldenImage>)

  /** A device as the executor sees it; only its custom fields are written. */
  class Device {
    const name: string
    const serial: string
    const primaryIp: Option<string>
    const deviceType: DeviceType
    var customFieldData: map<string, string>

    constructor (name: string, serial: string, primaryIp: Option<string>, deviceType: DeviceType,
                 customFieldData: map<string, string>)
      ensures this.name == name && this.serial == serial && this.primaryIp == primaryIp
      ensures this.deviceType == deviceType && this.customFieldData == customFieldData
    {
      this.name := name;
      this.serial := serial;
      this.primaryIp := primaryIp;
      this.deviceType := deviceType;
      this.customFieldData := customFieldData;
    }
  }

  /** One scheduled operation. Times are whole seconds; mw_duration is in hours. */
  class ScheduledTask {
    var device: Device?
    var taskType: TaskType
    var jobId: string
    var status: TaskStatus
    var message: string
    var failReason: FailReason
    var confirmed: bool
    var scheduledTime: Option<int>
    var startTime: Option<int>
    var endTime: Option<int>
    var mwDuration: Option<nat>
    var log: string
    var user: string
    var transferMethod: TransferMethod

    /** A new record with every field at its declared default. */
    constructor ()
      ensures device == null && jobId == "" && message == "" && log == "" && user == ""
      ensures taskType == Upload && status == Unknown && failReason == FailUnknown
      ensures !confirmed && transferMethod == Ftp
      ensures scheduledTime == None && startTime == None && endTime == None && mwDuration == None
    {
      device := null;
      taskType := Upload;
      jobId := "";
      status := Unknown;
      message := "";
      failReason := FailUnknown;
      confirmed := false;
      scheduledTime := None;
      startTime := None;
      endTime := None;
      mwDuration := None;
      log := "";
      user := "";
      transferMethod := Ftp;
    }

    /** __str__: "unknown" without a device, else "{device}: {job_id}" (a device prints as its name). */
    function ToString(): (s: string)
      reads this, device
      ensures device == null ==> s == "unknown"
      ensures device != null ==> s == device.name + ": " + jobId
    {
      if device == null then "unknown" else device.name + ": " + jobId
    }
  }

  /** What Job.fetch(job_id) finds in the queue. */
  datatype JobLookup = NoSuchJob | Found(started: bool)

  /** The job a record refers to, looked up in a queue given as job id -> started. */
  function Lookup(queue: map<string, bool>, jobId: string): (j: JobLookup)
    ensures j.Found? <==> jobId in queue
    ensures j.Found? ==> j.started == queue[jobId]
  {
    if jobId in queue then Found(queue[jobId]) else NoSuchJob
  }

  /** The job of this id is in the queue and has started. */
  predicate StartedIn(queue: map<string, bool>, jobId: string) {
    jobId in queue && queue[jobId]
  }

  /** What deleting one record removes from the queue and the store. */
  datatype DeleteEffect = DeleteEffect(jobDeleted: bool, recordDeleted: bool)

  /** ScheduledTask.delete: an unstarted job is deleted with its record; a
      started job keeps both; a record whose job is gone is deleted. */
  function DeleteTask(job: JobLookup): (e: DeleteEffect)
    ensures e.recordDeleted <==> !(job.Found? && job.started)
    ensures e.jobDeleted <==> (job.Found? && !job.started)
    ensures e.jobDeleted ==> e.recordDeleted
  {
    match job
    case Found(started) => if !started then DeleteEffect(true, true) else DeleteEffect(false, false)
    case NoSuchJob => DeleteEffect(false, true)
  }

  /** ScheduledTaskQuerySet.delete over records given by their job ids, in
      iteration order. Unstarted jobs are deleted from the queue as they are
      met; started job ids collect in the exclusion list, and every record
      whose job id is not excluded is deleted. */
  method DeleteQuerySet(records: seq<string>, queue: map<string, bool>)
    returns (excluded: seq<string>, deleted: set<nat>, remaining: map<string, bool>)
    ensures forall x :: x in excluded <==> x in records && StartedIn(queue, x)
    ensures forall i :: i in deleted <==> 0 <= i < |records| && !StartedIn(queue, records[i])
    ensures forall x :: x in remaining <==> x in queue && (x !in records || queue[x])
    ensures forall x :: x in remaining ==> remaining[x] == queue[x]
  {
    excluded := [];
    remaining := queue;
    var i := 0;
    while i < |records|
      invariant 0 <= i <= |records|
      invariant forall x :: x in excluded <==> x in records[..i] && StartedIn(queue, x)
      invariant forall x :: x in remaining <==> x in queue && (x !in records[..i] || queue[x])
      invariant forall x :: x in remaining ==> remaining[x] == queue[x]
    {
      var job := Lookup(remaining, records[i]);
      if job.Found? {
        if !job.started {
          remaining := remaining - {records[i]};
        } else {
          excluded := excluded + [records[i]];
        }
      }
      assert records[..i + 1] == records[..i] + [records[i]];
      i := i + 1;
    }
    assert records[..i] == records;
    deleted := set k | 0 <= k < |records| && records[k] !in excluded;
  }

  /** Both deletion paths keep a record exactly when its job has started. */
  lemma DeletionGuardAgrees(queue: map<string, bool>, jobId: string)
    ensures DeleteTask(Lookup(queue, jobId)).recordDeleted <==> !StartedIn(queue, jobId)
    ensures DeleteTask(Lookup(queue, jobId)).jobDeleted <==> jobId in queue && !StartedIn(queue, jobId)
  {
  }
}
