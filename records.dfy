/**
 * The Core Data records of the app: experiments, their configuration, their
 * sensor data point and their metadata.
 *
 * Records the views change in place (an experiment and its configuration) are
 * classes; the others are values. `Experiment.Snapshot` is the value an
 * experiment object holds at one moment, which is what the sync engine reads.
 * Double attributes are real numbers here: they are only copied, never
 * computed with.
 */
module Records {
  import opened Wrappers

  /** A UUID, kept as its `uuidString`. */
  datatype Uuid = Uuid(uuidString: string)

  /** A point in time: seconds since 1 January 2001 (Foundation's reference date). */
  datatype Date = Date(sinceReferenceDate: real)

  /** `Date.distantPast`, 1 January of year 1. */
  const DistantPast: Date := Date(-63114076800.0)

  datatype Configuration = Configuration(
    ultrasonicSensor1Enabled: bool,
    ultrasonicSensor2Enabled: bool,
    ultrasonicSensor3Enabled: bool,
    ultrasonicSensor4Enabled: bool,
    magneticSwitchEnabled: bool,
    experimentDuration: real,
    dataAcquisitionRate: real)

  datatype SensorDataPoint = SensorDataPoint(
    timestamp: Option<Date>,
    ultrasonic1: real,
    ultrasonic2: real,
    ultrasonic3: real,
    ultrasonic4: real,
    magneticSwitch: bool)

  datatype ExperimentMetadata = ExperimentMetadata(
    location: Option<string>,
    experimenter: Option<string>,
    deviceID: Option<string>)

  /** The value of an experiment and of what it refers to. `sensorData` is a
      to-one relationship: at most one point. */
  datatype ExperimentRecord = ExperimentRecord(
    id: Option<Uuid>,
    name: Option<string>,
    videoPath: Option<string>,
    status: Option<string>,
    notes: Option<string>,
    startTime: Option<Date>,
    endTime: Option<Date>,
    configuration: Option<Configuration>,
    sensorData: Option<SensorDataPoint>,
    metadata: Option<ExperimentMetadata>)

  class ExperimentConfiguration {
    var ultrasonicSensor1Enabled: bool
    var ultrasonicSensor2Enabled: bool
    var ultrasonicSensor3Enabled: bool
    var ultrasonicSensor4Enabled: bool
    var magneticSwitchEnabled: bool
    var experimentDuration: real
    var dataAcquisitionRate: real

    /** `ExperimentConfiguration(context:)`: a new object with the scalar
        defaults false and 0. */
    constructor ()
      ensures Value() == Configuration(false, false, false, false, false, 0.0, 0.0)
    {
      ultrasonicSensor1Enabled, ultrasonicSensor2Enabled := false, false;
      ultrasonicSensor3Enabled, ultrasonicSensor4Enabled := false, false;
      magneticSwitchEnabled := false;
      experimentDuration, dataAcquisitionRate := 0.0, 0.0;
    }

    function Value(): Configuration
      reads this
    {
      Configuration(ultrasonicSensor1Enabled, ultrasonicSensor2Enabled, ultrasonicSensor3Enabled,
                    ultrasonicSensor4Enabled, magneticSwitchEnabled, experimentDuration, dataAcquisitionRate)
    }
  }

  class Experiment {
    var id: Option<Uuid>
    var name: Option<string>
    var videoPath: Option<string>
    var status: Option<string>
    var notes: Option<string>
    var startTime: Option<Date>
    var endTime: Option<Date>
    var configuration: ExperimentConfiguration?
    var sensorData: Option<SensorDataPoint>
    var metadata: Option<ExperimentMetadata>

    /** `Experiment(context:)`: a new object with every attribute nil. */
    constructor ()
      ensures Snapshot() == ExperimentRecord(None, None, None, None, None, None, None, None, None, None)
      ensures configuration == null
    {
      id, name, videoPath, status, notes := None, None, None, None, None;
      startTime, endTime := None, None;
      configuration := null;
      sensorData, metadata := None, None;
    }

    /** The object's current value, configuration included. */
    function Snapshot(): ExperimentRecord
      reads this, configuration
    {
      ExperimentRecord(id, name, videoPath, status, notes, startTime, endTime,
                       if configuration == null then None else Some(configuration.Value()),
                       sensorData, metadata)
    }
  }
}
