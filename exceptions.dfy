// The two exception value classes (custom_exceptions.py, task_exceptions.py)
// and the outcome type that joins them: the executor in upgrade.py raises
// UpgradeException, while the worker catches TaskException from an executor
// module that is not part of this model. Neither class is taken to be the
// other; both are mapped onto one abstract outcome.

module CustomExceptions {
  import opened Text

  /** UpgradeException(reason, message, **kwargs): the keyword arguments go to the
      base Exception and are not kept in this value. */
  datatype UpgradeException = UpgradeException(reason: string, message: string) {
    /** __str__: class name, reason and message separated by ": ". */
    function ToString(): string {
      ExceptionText("UpgradeException", reason, message)
    }
  }

  /** The constructor call with its extra keyword arguments. */
  function Raise(reason: string, message: string, kwargs: map<string, string>): (e: UpgradeException)
    ensures e.reason == reason && e.message == message
  {
    UpgradeException(reason, message)
  }

  /** Extra keyword arguments change neither the fields nor the text. */
  lemma KwargsIgnored(reason: string, message: string, k1: map<string, string>, k2: map<string, string>)
    ensures Raise(reason, message, k1) == Raise(reason, message, k2)
    ensures Raise(reason, message, k1).ToString() == Raise(reason, message, k2).ToString()
  {
  }
}

module TaskExceptions {
  import opened Text

  /** TaskException(reason, message, **kwargs). */
  datatype TaskException = TaskException(reason: string, message: string) {
    /** __str__: class name, reason and message separated by ": ". */
    function ToString(): string {
      ExceptionText("TaskException", reason, message)
    }
  }

  function Raise(reason: string, message: string, kwargs: map<string, string>): (e: TaskException)
    ensures e.reason == reason && e.message == message
  {
    TaskException(reason, message)
  }

  lemma KwargsIgnored(reason: string, message: string, k1: map<string, string>, k2: map<string, string>)
    ensures Raise(reason, message, k1) == Raise(reason, message, k2)
    ensures Raise(reason, message, k1).ToString() == Raise(reason, message, k2).ToString()
  {
  }
}

module Outcome {
  import opened CustomExceptions
  import opened TaskExceptions

  /** How a step of the executor ends: it returns, raises UpgradeException
      (through action_task), or raises any other exception (an attribute,
      index, type or value error, or a transport error nothing catches). */
  datatype Flow = Proceed | Raise(exc: UpgradeException) | Crash

  /** What the worker sees of an executor run: normal completion, the typed
      signal with its reason and message, or an untyped error. */
  datatype ExecOutcome = Completed | Signalled(reason: string, message: string) | Errored

  /** The executor's Flow as the worker's outcome; the typed signal keeps its reason and message. */
  function OfFlow(f: Flow): (o: ExecOutcome)
    ensures o.Completed? <==> f.Proceed?
    ensures o.Errored? <==> f.Crash?
    ensures f.Raise? ==> o == Signalled(f.exc.reason, f.exc.message)
  {
    match f
    case Proceed => Completed
    case Raise(e) => Signalled(e.reason, e.message)
    case Crash => Errored
  }

  /** The TaskException the worker re-raises for a typed signal. */
  function AsTaskException(o: ExecOutcome): (e: TaskException)
    requires o.Signalled?
    ensures e.reason == o.reason && e.message == o.message
  {
    TaskException(o.reason, o.message)
  }

  /** Going through the joined outcome keeps reason and message, and only the class name in the text changes. */
  lemma SignalKeepsReasonAndMessage(e: UpgradeException)
    ensures AsTaskException(OfFlow(Raise(e))).ToString()
         == "TaskException: " + e.ToString()[|"UpgradeException: "|..]
  {
  }

  /** The two classes never print the same text. */
  lemma {:induction false} ClassNamesDistinguishText(u: UpgradeException, t: TaskException)
    ensures u.ToString() != t.ToString()
  {
    assert u.ToString()[0] == 'U' && t.ToString()[0] == 'T';
  }
}
