/** The task registry of the agent SDK: a map from task name to the running
    unit of work, a supervisory wrapper that turns each unit's outcome into
    exactly one status report and then unregisters it, and a teardown that
    cancels everything.

    The asyncio scheduling is not modelled: a unit's completion is an explicit
    step, `Complete`, that is told how the executor finished and how the call
    to the status collaborator went. The wrapper's steps (each report sent, each
    name unregistered) are kept in order as a ghost trace, and the
    cancellations requested as a ghost log. */
module Tasks {
  import opened Wrappers

  /** Who a task is assigned to (the fields the SDK reads from it). */
  datatype TaskAssignment = TaskAssignment(
    identityName: string, teamName: string, roleName: string, agentName: string)

  /** The schedulable unit registered under a name: the supervisory wrapper
      together with the arguments it was started with. */
  datatype Handle = Handle(name: string, description: string, assignment: TaskAssignment)

  /** How the executor finished: it returned a result, it observed a
      cancellation, or it raised an exception with the given message. */
  datatype Outcome = Success(result: string) | Cancelled | Failed(message: string)

  /** How the status collaborator's finish_task call went: it returned, it
      raised a client exception (which is swallowed), or it raised some other
      exception (which propagates). */
  datatype Reporting = Delivered | ClientError | OtherError(message: string)

  /** The arguments of one finish_task call. */
  datatype Report = Report(
    task: string, description: string, assignment: TaskAssignment,
    result: string, error: string)

  /** One step of a supervisory wrapper, in the order it happens: a
      finish_task call, or the removal of a name from the registry. */
  datatype Event = Reported(report: Report) | Removed(name: string)

  /** The finish_task calls of a trace, in order. */
  function ReportsIn(events: seq<Event>): seq<Report> {
    if |events| == 0 then []
    else
      var last := events[|events| - 1];
      ReportsIn(events[..|events| - 1]) + (if last.Reported? then [last.report] else [])
  }

  /** The exception run_task raises for a name that is already registered. */
  datatype RunError = ValueError(message: string)

  /** The error text reported for a cancelled task. */
  const TaskCancelledError: string := "Task cancelled"

  function AlreadyRunningMessage(name: string): string {
    "Task " + name + " is already running"
  }

  /** The report the supervisory wrapper sends for a unit that finished
      with outcome `o`. */
  function ReportFor(h: Handle, o: Outcome): Report {
    match o
    case Success(res) => Report(h.name, h.description, h.assignment, res, "")
    case Cancelled => Report(h.name, h.description, h.assignment, "", TaskCancelledError)
    case Failed(msg) => Report(h.name, h.description, h.assignment, "", msg)
  }

  /** Reads an outcome back from a report: the status collaborator's view. */
  function OutcomeOf(r: Report): Outcome {
    if r.error == "" then Success(r.result)
    else if r.error == TaskCancelledError then Cancelled
    else Failed(r.error)
  }

  /** Outcomes whose report cannot be mistaken for another outcome's: a
      failure whose message is empty reads as a success with an empty result,
      and one whose message is the cancellation text reads as a cancellation. */
  predicate Distinguishable(o: Outcome) {
    o.Failed? ==> o.message != "" && o.message != TaskCancelledError
  }

  /** A report names the task it is about and determines the outcome. */
  lemma ReportRoundTrip(h: Handle, o: Outcome)
    requires Distinguishable(o)
    ensures ReportFor(h, o).task == h.name
    ensures OutcomeOf(ReportFor(h, o)) == o
  {
  }

  /** The two collisions that `Distinguishable` excludes really occur. */
  lemma ReportCollisions(h: Handle)
    ensures ReportFor(h, Failed("")) == ReportFor(h, Success(""))
    ensures ReportFor(h, Failed(TaskCancelledError)) == ReportFor(h, Cancelled)
  {
  }

  class TaskManager {
    /** The registry: task name to the unit running it. */
    var running: map<string, Handle>
    /** Every wrapper step taken so far, in order. */
    ghost var events: seq<Event>
    /** Every cancel() delivered to a unit so far, in order. */
    ghost var cancelSignals: seq<Handle>

    /** Every finish_task call made so far, in order. */
    ghost function Reports(): seq<Report>
      reads this
    {
      ReportsIn(events)
    }

    /** Each entry is the unit started for the name it is registered under. */
    ghost predicate Valid()
      reads this
    {
      forall n :: n in running ==> running[n].name == n
    }

    constructor ()
      ensures Valid()
      ensures running == map[] && events == [] && cancelSignals == []
    {
      running := map[];
      events := [];
      cancelSignals := [];
    }

    /** Starts `name` unless it is already registered. */
    method RunTask(name: string, description: string, assignment: TaskAssignment)
      returns (r: Result<(), RunError>)
      requires Valid()
      modifies this
      ensures Valid()
      ensures name in old(running) ==>
        r == Err(ValueError(AlreadyRunningMessage(name))) && running == old(running)
      ensures name !in old(running) ==>
        r.Ok? && running == old(running)[name := Handle(name, description, assignment)]
      ensures events == old(events) && cancelSignals == old(cancelSignals)
    {
      if name in running {
        return Err(ValueError(AlreadyRunningMessage(name)));
      }
      running := running[name := Handle(name, description, assignment)];
      r := Ok(());
    }

    /** Sends one report. A client exception is swallowed; any other
        exception is returned as the one that propagates. */
    method FinishTask(task: string, description: string, assignment: TaskAssignment,
                      result: string, error: string, reporting: Reporting)
      returns (raised: Option<string>)
      modifies this`events
      ensures events == old(events) + [Reported(Report(task, description, assignment, result, error))]
      ensures raised == if reporting.OtherError? then Some(reporting.message) else None
    {
      events := events + [Reported(Report(task, description, assignment, result, error))];
      match reporting
      case Delivered => raised := None;
      case ClientError => raised := None;
      case OtherError(msg) => raised := Some(msg);
    }

    /** The supervisory wrapper's reaction to its executor finishing with
        `outcome`: exactly one report, and after it the removal of the name,
        on every path. `escaped` is the exception that leaves the wrapper: never the
        executor's, only a non-client exception raised while reporting. */
    method Complete(name: string, outcome: Outcome, reporting: Reporting)
      returns (escaped: Option<string>)
      requires Valid() && name in running
      modifies this
      ensures Valid()
      ensures running == old(running) - {name}
      ensures events == old(events) + [Reported(ReportFor(old(running)[name], outcome)), Removed(name)]
      ensures Reports() == old(Reports()) + [ReportFor(old(running)[name], outcome)]
      ensures escaped == if reporting.OtherError? then Some(reporting.message) else None
      ensures cancelSignals == old(cancelSignals)
    {
      var h := running[name];
      match outcome {
        case Cancelled =>
          escaped := FinishTask(name, h.description, h.assignment, "", TaskCancelledError, reporting);
        case Failed(msg) =>
          escaped := FinishTask(name, h.description, h.assignment, "", msg, reporting);
        case Success(res) =>
          escaped := FinishTask(name, h.description, h.assignment, res, "", reporting);
      }
      running := running - {name};
      events := events + [Removed(name)];
      ghost var reported := events[..|events| - 1];
      assert reported[..|reported| - 1] == old(events);
      assert ReportsIn(events) == ReportsIn(reported);
      assert ReportsIn(reported) == ReportsIn(old(events)) + [ReportFor(h, outcome)];
    }

    /** Cancels every registered unit once and empties the registry. */
    method Teardown()
      requires Valid()
      modifies this
      ensures Valid()
      ensures running == map[]
      ensures events == old(events)
      ensures |cancelSignals| == |old(cancelSignals)| + |old(running)|
      ensures cancelSignals[..|old(cancelSignals)|] == old(cancelSignals)
      ensures forall i :: |old(cancelSignals)| <= i < |cancelSignals| ==>
        cancelSignals[i].name in old(running) && cancelSignals[i] == old(running)[cancelSignals[i].name]
      ensures forall n :: n in old(running) ==> old(running)[n] in cancelSignals[|old(cancelSignals)|..]
    {
      ghost var base := |cancelSignals|;
      var pending := running.Keys;
      while pending != {}
        invariant running == old(running) && events == old(events)
        invariant pending <= running.Keys
        invariant base == |old(cancelSignals)| <= |cancelSignals|
        invariant cancelSignals[..base] == old(cancelSignals)
        invariant |cancelSignals| - base + |pending| == |running.Keys|
        invariant forall i :: base <= i < |cancelSignals| ==>
          cancelSignals[i].name in running && cancelSignals[i].name !in pending &&
          cancelSignals[i] == running[cancelSignals[i].name]
        invariant forall n :: n in running && n !in pending ==> running[n] in cancelSignals[base..]
        decreases pending
      {
        var n :| n in pending;
        ghost var signalled := cancelSignals[base..];
        cancelSignals := cancelSignals + [running[n]];
        assert cancelSignals[base..] == signalled + [running[n]];
        pending := pending - {n};
      }
      running := map[];
    }
  }

  /** The registry's contract in use: a duplicate start is refused, and a
      failing executor is reported once and then unregistered. */
  method FailedTaskScenario(a: TaskAssignment) {
    var m := new TaskManager();
    var r := m.RunTask("T1", "desc", a);
    assert r.Ok?;
    r := m.RunTask("T1", "other", a);
    assert r == Err(ValueError(AlreadyRunningMessage("T1")));
    var escaped := m.Complete("T1", Failed("boom"), ClientError);
    assert escaped == None;
    assert m.Reports() == [Report("T1", "desc", a, "", "boom")];
    assert "T1" !in m.running;
  }
}
