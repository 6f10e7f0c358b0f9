/**
 * The record-state rules of `ExperimentDetailView`: the control button, which
 * starts or stops an experiment through the REST client and updates the
 * record only when the command succeeds, the stop button's enablement and the
 * configuration text. The view's sensor list is the helper of `SensorList`.
 */
module DetailView {
  import opened Wrappers
  import opened Records
  import opened Rest
  import Status

  const RunningStatus: string := "Running"
  const CompletedStatus: string := "Completed"

  /** `ultrasonic1Status`. */
  function Ultrasonic1Status(e: ExperimentRecord): (s: string)
    ensures s == "Yes" <==> e.configuration.Some? && e.configuration.value.ultrasonicSensor1Enabled
    ensures s != "Yes" ==> s == "No"
  {
    if e.configuration.Some? && e.configuration.value.ultrasonicSensor1Enabled then "Yes" else "No"
  }

  /** `isStopButtonDisabled`, which disables the control button whichever
      command it would send. */
  predicate IsStopButtonDisabled(e: ExperimentRecord)
  {
    e.status == Some(RunningStatus) && e.endTime.Some?
  }

  datatype ControlCommand = Start | Stop

  /** The command the control button sends. */
  function ControlButtonCommand(e: ExperimentRecord): (c: ControlCommand)
    ensures c == Stop <==> e.status == Some(RunningStatus)
  {
    if e.status == Some(RunningStatus) then Stop else Start
  }

  /** The control button's title. */
  function ControlButtonTitle(e: ExperimentRecord): (title: string)
    ensures title == (if ControlButtonCommand(e) == Stop then "Stop Experiment" else "Start Experiment")
  {
    if e.status == Some(RunningStatus) then "Stop Experiment" else "Start Experiment"
  }

  function CommandName(c: ControlCommand): string
  {
    match c
    case Start => "start_experiment"
    case Stop => "stop_experiment"
  }

  /** `experiment.id?.uuidString ?? ""`, the value both commands send. */
  function CommandValue(e: ExperimentRecord): (value: string)
    ensures e.id.Some? ==> value == e.id.value.uuidString
    ensures e.id.None? ==> value == ""
  {
    match e.id
    case Some(id) => id.uuidString
    case None => ""
  }

  /** The record after `startExperiment`'s completion: on success the status
      is running and the start time is `now`; on failure nothing changes. */
  function AfterStart(e: ExperimentRecord, result: Result<string, RESTClientError>, now: Date): ExperimentRecord
  {
    if result.Success? then e.(status := Some(RunningStatus), startTime := Some(now)) else e
  }

  /** The record after `stopExperiment`'s completion: on success the status
      is completed and the end time is `now`; on failure nothing changes. */
  function AfterStop(e: ExperimentRecord, result: Result<string, RESTClientError>, now: Date): ExperimentRecord
  {
    if result.Success? then e.(status := Some(CompletedStatus), endTime := Some(now)) else e
  }

  /** `startExperiment()`; `now` stands for `Date()` when the reply arrives. */
  method StartExperiment(experiment: Experiment, services: CommandServices, now: Date)
    returns (result: Result<string, RESTClientError>)
    modifies experiment
    ensures result == SendSimpleCommand(CommandName(Start), CommandValue(old(experiment.Snapshot())), services)
    ensures experiment.Snapshot() == AfterStart(old(experiment.Snapshot()), result, now)
    ensures experiment.configuration == old(experiment.configuration)
  {
    var value := if experiment.id.Some? then experiment.id.value.uuidString else "";
    result := SendSimpleCommand("start_experiment", value, services);
    if result.Success? {
      experiment.status := Some("Running");
      experiment.startTime := Some(now);
    }
  }

  /** `stopExperiment()`; `now` stands for `Date()` when the reply arrives. */
  method StopExperiment(experiment: Experiment, services: CommandServices, now: Date)
    returns (result: Result<string, RESTClientError>)
    modifies experiment
    ensures result == SendSimpleCommand(CommandName(Stop), CommandValue(old(experiment.Snapshot())), services)
    ensures experiment.Snapshot() == AfterStop(old(experiment.Snapshot()), result, now)
    ensures experiment.configuration == old(experiment.configuration)
  {
    var value := if experiment.id.Some? then experiment.id.value.uuidString else "";
    result := SendSimpleCommand("stop_experiment", value, services);
    if result.Success? {
      experiment.status := Some("Completed");
      experiment.endTime := Some(now);
    }
  }

  /** The control button's action: stop a running experiment, start any other. */
  method PressControlButton(experiment: Experiment, services: CommandServices, now: Date)
    returns (result: Result<string, RESTClientError>)
    modifies experiment
    ensures var before := old(experiment.Snapshot());
      && result == SendSimpleCommand(CommandName(ControlButtonCommand(before)), CommandValue(before), services)
      && experiment.Snapshot() == (if ControlButtonCommand(before) == Stop then AfterStop(before, result, now)
                                   else AfterStart(before, result, now))
  {
    if experiment.status == Some("Running") {
      result := StopExperiment(experiment, services, now);
    } else {
      result := StartExperiment(experiment, services, now);
    }
  }

  /** A failed command leaves the record as it was. */
  lemma FailureChangesNothing(e: ExperimentRecord, error: RESTClientError, now: Date)
    ensures AfterStart(e, Failure(error), now) == e && AfterStop(e, Failure(error), now) == e
  {
  }

  /** A successful start makes the button a stop button and touches only the
      status and start time; a successful stop makes it a start button again
      and touches only the status and end time. */
  lemma SuccessfulTransitions(e: ExperimentRecord, response: string, now: Date)
    ensures var s := AfterStart(e, Success(response), now);
      && ControlButtonCommand(s) == Stop && s.startTime == Some(now)
      && s == e.(status := s.status, startTime := s.startTime)
      && (IsStopButtonDisabled(s) <==> e.endTime.Some?)
    ensures var t := AfterStop(e, Success(response), now);
      && ControlButtonCommand(t) == Start && t.endTime == Some(now) && !IsStopButtonDisabled(t)
      && t == e.(status := t.status, endTime := t.endTime)
  {
  }

  /** The status a stop writes is not a raw value of `ExperimentStatus`. */
  lemma StoppedStatusIsNoCase(e: ExperimentRecord, response: string, now: Date)
    ensures Status.FromRawValue(AfterStop(e, Success(response), now).status.value) == None
  {
    Status.CompletedIsNotACase();
  }

  /** The end time a stop writes is never cleared by a later start: after a
      start, a stop and a second start that all succeed, the experiment is
      running and its stop button is disabled. */
  lemma RestartDisablesStop(e: ExperimentRecord, r1: string, r2: string, r3: string, t1: Date, t2: Date, t3: Date)
    ensures var s := AfterStart(AfterStop(AfterStart(e, Success(r1), t1), Success(r2), t2), Success(r3), t3);
      && ControlButtonCommand(s) == Stop && s.endTime == Some(t2) && IsStopButtonDisabled(s)
  {
  }
}
