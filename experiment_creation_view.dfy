/**
 * `ExperimentCreationView`: a form that is filled from the experiment being
 * edited, when there is one, and whose Save writes the form into that
 * experiment or into a new one.
 */
module CreationView {
  import opened Wrappers
  import opened Records
  import Status

  /** The form's state: name, notes, the five sensor switches, the duration
      and the acquisition rate. */
  datatype FormValues = FormValues(
    name: string,
    notes: string,
    ultrasonic1Enabled: bool,
    ultrasonic2Enabled: bool,
    ultrasonic3Enabled: bool,
    ultrasonic4Enabled: bool,
    magneticSwitchEnabled: bool,
    experimentDuration: real,
    dataAcquisitionRate: real)

  /** The form's initial state. */
  const InitialForm: FormValues := FormValues("", "", true, true, true, true, true, 60.0, 0.1)

  const NewStatus: string := "Not Run"

  /** What `setupView` puts into the form for an experiment being edited:
      its fields where set, the initial values where not. */
  function FormOf(e: ExperimentRecord): FormValues
  {
    match e.configuration
    case Some(c) =>
      FormValues(e.name.GetOr(""), e.notes.GetOr(""), c.ultrasonicSensor1Enabled, c.ultrasonicSensor2Enabled,
                 c.ultrasonicSensor3Enabled, c.ultrasonicSensor4Enabled, c.magneticSwitchEnabled,
                 c.experimentDuration, c.dataAcquisitionRate)
    case None =>
      InitialForm.(name := e.name.GetOr(""), notes := e.notes.GetOr(""))
  }

  /** The configuration values the form describes. */
  function FormConfiguration(f: FormValues): Configuration
  {
    Configuration(f.ultrasonic1Enabled, f.ultrasonic2Enabled, f.ultrasonic3Enabled, f.ultrasonic4Enabled,
                  f.magneticSwitchEnabled, f.experimentDuration, f.dataAcquisitionRate)
  }

  /** The record after `saveExperiment` has written the form into `e`. */
  function ApplyForm(e: ExperimentRecord, f: FormValues): ExperimentRecord
  {
    e.(name := Some(f.name), notes := Some(f.notes), configuration := Some(FormConfiguration(f)))
  }

  /** A new experiment before the form is written: a fresh id, the start
      time, the "Not Run" status, and nothing else. */
  function NewRecord(id: Uuid, now: Date): ExperimentRecord
  {
    ExperimentRecord(Some(id), None, None, Some(NewStatus), None, Some(now), None, None, None, None)
  }

  /** Save is disabled exactly while the name is empty. */
  predicate IsSaveDisabled(f: FormValues)
  {
    f.name == ""
  }

  /** Editing an experiment right after saving it shows the form that was
      saved. */
  lemma SetupAfterSave(e: ExperimentRecord, f: FormValues)
    ensures FormOf(ApplyForm(e, f)) == f
  {
  }

  /** Without a configuration the sensor switches are on, the duration is 60
      and the rate 0.1; a missing name or notes reads as empty. */
  lemma SetupDefaults(e: ExperimentRecord)
    ensures e.configuration.None? ==>
      && FormOf(e).ultrasonic1Enabled && FormOf(e).ultrasonic2Enabled && FormOf(e).ultrasonic3Enabled
      && FormOf(e).ultrasonic4Enabled && FormOf(e).magneticSwitchEnabled
      && FormOf(e).experimentDuration == 60.0 && FormOf(e).dataAcquisitionRate == 0.1
    ensures e.name.None? ==> FormOf(e).name == ""
    ensures e.notes.None? ==> FormOf(e).notes == ""
  {
  }

  /** Saving writes only the name, the notes and the configuration: id,
      status, times, video, sensor data and metadata stay. */
  lemma SaveKeepsTheRest(e: ExperimentRecord, f: FormValues)
    ensures var s := ApplyForm(e, f);
      && s.id == e.id && s.status == e.status && s.startTime == e.startTime && s.endTime == e.endTime
      && s.videoPath == e.videoPath && s.sensorData == e.sensorData && s.metadata == e.metadata
      && s.name == Some(f.name) && s.notes == Some(f.notes) && s.configuration == Some(FormConfiguration(f))
  {
  }

  /** Save starts disabled, and a form filled by `setupView` from an
      experiment disables it exactly when that experiment has no name or an
      empty one. */
  lemma SaveEnablement(e: ExperimentRecord)
    ensures IsSaveDisabled(InitialForm)
    ensures IsSaveDisabled(FormOf(e)) <==> e.name.None? || e.name == Some("")
  {
  }

  /** A new experiment's status is the raw value of `ExperimentStatus.notRun`. */
  lemma NewExperimentIsNotRun(id: Uuid, now: Date, f: FormValues)
    ensures Status.FromRawValue(ApplyForm(NewRecord(id, now), f).status.value) == Some(Status.NotRun)
  {
  }

  class ExperimentForm {
    var experimentName: string
    var experimentNotes: string
    var ultrasonic1Enabled: bool
    var ultrasonic2Enabled: bool
    var ultrasonic3Enabled: bool
    var ultrasonic4Enabled: bool
    var magneticSwitchEnabled: bool
    var experimentDuration: real
    var dataAcquisitionRate: real

    function Values(): FormValues
      reads this
    {
      FormValues(experimentName, experimentNotes, ultrasonic1Enabled, ultrasonic2Enabled, ultrasonic3Enabled,
                 ultrasonic4Enabled, magneticSwitchEnabled, experimentDuration, dataAcquisitionRate)
    }

    /** The view's `@State` defaults. */
    constructor ()
      ensures Values() == InitialForm
    {
      experimentName, experimentNotes := "", "";
      ultrasonic1Enabled, ultrasonic2Enabled, ultrasonic3Enabled, ultrasonic4Enabled := true, true, true, true;
      magneticSwitchEnabled := true;
      experimentDuration, dataAcquisitionRate := 60.0, 0.1;
    }

    /** `setupView()`: fills the form from the experiment being edited;
        without one the form keeps what it holds. */
    method SetupView(experimentToEdit: Experiment?)
      modifies this
      ensures experimentToEdit == null ==> Values() == old(Values())
      ensures experimentToEdit != null ==> Values() == FormOf(experimentToEdit.Snapshot())
    {
      if experimentToEdit != null {
        var experiment := experimentToEdit;
        var configuration := experiment.configuration;
        experimentName := experiment.name.GetOr("");
        experimentNotes := experiment.notes.GetOr("");
        ultrasonic1Enabled := if configuration == null then true else configuration.ultrasonicSensor1Enabled;
        ultrasonic2Enabled := if configuration == null then true else configuration.ultrasonicSensor2Enabled;
        ultrasonic3Enabled := if configuration == null then true else configuration.ultrasonicSensor3Enabled;
        ultrasonic4Enabled := if configuration == null then true else configuration.ultrasonicSensor4Enabled;
        magneticSwitchEnabled := if configuration == null then true else configuration.magneticSwitchEnabled;
        experimentDuration := if configuration == null then 60.0 else configuration.experimentDuration;
        dataAcquisitionRate := if configuration == null then 0.1 else configuration.dataAcquisitionRate;
      }
    }

    /** `saveExperiment()`: writes the form into the experiment being edited,
        reusing its configuration or attaching a new one, or into a new
        experiment with a new configuration; `newId` and `now` stand for
        `UUID()` and `Date()`. */
    method SaveExperiment(experimentToEdit: Experiment?, newId: Uuid, now: Date) returns (experiment: Experiment)
      modifies if experimentToEdit == null then {} else {experimentToEdit}
      modifies if experimentToEdit == null || experimentToEdit.configuration == null then {}
               else {experimentToEdit.configuration}
      ensures experiment.configuration != null
      ensures experimentToEdit == null ==>
        && fresh(experiment) && fresh(experiment.configuration)
        && experiment.Snapshot() == ApplyForm(NewRecord(newId, now), Values())
      ensures experimentToEdit != null ==>
        && experiment == experimentToEdit
        && experiment.Snapshot() == ApplyForm(old(experimentToEdit.Snapshot()), Values())
        && (old(experimentToEdit.configuration) != null ==> experiment.configuration == old(experimentToEdit.configuration))
        && (old(experimentToEdit.configuration) == null ==> fresh(experiment.configuration))
    {
      var configuration: ExperimentConfiguration;
      if experimentToEdit != null {
        experiment := experimentToEdit;
        if experimentToEdit.configuration != null {
          configuration := experimentToEdit.configuration;
        } else {
          configuration := new ExperimentConfiguration();
        }
      } else {
        experiment := new Experiment();
        experiment.id := Some(newId);
        experiment.startTime := Some(now);
        experiment.status := Some(NewStatus);
        configuration := new ExperimentConfiguration();
      }
      WriteForm(experiment, configuration);
    }

    /** The assignments `saveExperiment` makes once it has chosen the
        experiment and the configuration. */
    method WriteForm(experiment: Experiment, configuration: ExperimentConfiguration)
      modifies experiment, configuration
      ensures experiment.configuration == configuration
      ensures experiment.Snapshot() == ApplyForm(old(experiment.Snapshot()), Values())
    {
      experiment.name := Some(experimentName);
      experiment.notes := Some(experimentNotes);
      configuration.ultrasonicSensor1Enabled := ultrasonic1Enabled;
      configuration.ultrasonicSensor2Enabled := ultrasonic2Enabled;
      configuration.ultrasonicSensor3Enabled := ultrasonic3Enabled;
      configuration.ultrasonicSensor4Enabled := ultrasonic4Enabled;
      configuration.magneticSwitchEnabled := magneticSwitchEnabled;
      configuration.experimentDuration := experimentDuration;
      configuration.dataAcquisitionRate := dataAcquisitionRate;
      experiment.configuration := configuration;
    }
  }
}
