/**
 * The sync engine (`DataSyncManager`): for every fetched experiment, in
 * fetch order, it sends the experiment's details, its video file, its
 * sensor data and its metadata to four endpoints of a server, and reports
 * its progress in `syncStatus`.
 *
 * The server, the file system, URL parsing, MD5 and UUID generation are not
 * modelled; they are the functions of an `Environment` the caller supplies.
 * Every request the engine sends is recorded in the log `requests` (whose
 * length also numbers the server's replies), and every value
 * `syncStatus` takes in the ghost log `statusHistory`.
 * JSON bodies are kept as the key/value maps handed to `JSONSerialization`.
 */
module Sync {
  import opened Wrappers
  import opened Bytes
  import opened Records
  import opened Http
  import opened Checksum
  import opened Multipart
  import opened UploadBody

  // ----- JSON values and requests -----

  /** A JSON value as the payload dictionaries hold it. `JTimestamp(d)` is
      the ISO 8601 text of `d`; the formatting belongs to Foundation. */
  datatype Json =
    | JNull
    | JBool(b: bool)
    | JNumber(x: real)
    | JString(s: string)
    | JTimestamp(d: Date)
    | JArray(items: seq<Json>)
    | JObject(fields: map<string, Json>)

  datatype Body = JsonBody(payload: map<string, Json>) | FormData(bytes: seq<byte>)

  /** A POST request: where it goes, its Content-Type header and its body. */
  datatype Request = Request(url: Endpoint, httpMethod: string, contentType: string, body: Body)

  /** A file URL: its text and its last path component. */
  datatype FileUrl = FileUrl(absoluteString: string, lastPathComponent: string)

  /** What the engine calls but does not contain: `URL(string:)`,
      `Data(contentsOf:)`, `Insecure.MD5.hash`, `UUID()` (as a function of
      the experiment id and the file URL the boundary is made for) and the
      server's reply to the k-th request. */
  datatype Environment = Environment(
    parseUrl: string -> Option<FileUrl>,
    readFile: FileUrl -> Result<seq<byte>, string>,
    md5: seq<byte> -> Digest,
    newBoundary: (string, FileUrl) -> Uuid,
    transport: (nat, Request) -> Result<ResponseKind, string>)

  /** What became of one send; the app only logs it. */
  datatype SendOutcome =
    | Skipped
    | ReadFailed(readError: string)
    | Synced
    | Rejected(response: ResponseKind)
    | Errored(error: string)

  /** A send succeeds on a reply that is an HTTP response with status 200
      exactly; any other reply, 2xx included, is a failure. */
  function Classify(reply: Result<ResponseKind, string>): (r: SendOutcome)
    ensures r == Synced <==> reply == Success(Http(200))
    ensures reply.Failure? <==> r.Errored?
    ensures r.Rejected? ==> reply == Success(r.response)
  {
    match reply
    case Failure(error) => Errored(error)
    case Success(kind) => if kind == Http(200) then Synced else Rejected(kind)
  }

  /** 201 is a success status of HTTP, but not a successful send here. */
  lemma CreatedIsNotSynced()
    ensures IsSuccessStatus(201) && Classify(Success(Http(201))) == Rejected(Http(201))
  {
  }

  // ----- payloads -----

  /** `dictionary.compactMapValues { $0 }`: the entries whose value is not nil. */
  function CompactMapValues(m: map<string, Option<Json>>): (r: map<string, Json>)
    ensures forall k :: k in r <==> k in m && m[k].Some?
    ensures forall k :: k in r ==> m[k] == Some(r[k])
  {
    map k | k in m && m[k].Some? :: m[k].value
  }

  function OptionalString(s: Option<string>): Option<Json>
  {
    match s
    case None => None
    case Some(t) => Some(JString(t))
  }

  function OptionalTimestamp(d: Option<Date>): Option<Json>
  {
    match d
    case None => None
    case Some(t) => Some(JTimestamp(t))
  }

  const ConfigurationKeys: set<string> := {"ultrasonicSensor1Enabled", "ultrasonicSensor2Enabled",
    "ultrasonicSensor3Enabled", "ultrasonicSensor4Enabled", "magneticSwitchEnabled",
    "experimentDuration", "dataAcquisitionRate"}

  /** The "configuration" dictionary. Each value is an optional boxed in
      `Any`, which is not removed by `compactMapValues` and is written as
      JSON null when the experiment has no configuration. */
  function ConfigurationJson(c: Option<Configuration>): map<string, Json>
  {
    match c
    case None =>
      map["ultrasonicSensor1Enabled" := JNull, "ultrasonicSensor2Enabled" := JNull,
          "ultrasonicSensor3Enabled" := JNull, "ultrasonicSensor4Enabled" := JNull,
          "magneticSwitchEnabled" := JNull, "experimentDuration" := JNull, "dataAcquisitionRate" := JNull]
    case Some(d) =>
      map["ultrasonicSensor1Enabled" := JBool(d.ultrasonicSensor1Enabled),
          "ultrasonicSensor2Enabled" := JBool(d.ultrasonicSensor2Enabled),
          "ultrasonicSensor3Enabled" := JBool(d.ultrasonicSensor3Enabled),
          "ultrasonicSensor4Enabled" := JBool(d.ultrasonicSensor4Enabled),
          "magneticSwitchEnabled" := JBool(d.magneticSwitchEnabled),
          "experimentDuration" := JNumber(d.experimentDuration),
          "dataAcquisitionRate" := JNumber(d.dataAcquisitionRate)]
  }

  /** The configuration dictionary always has its seven keys; every value is
      null without a configuration, and the configuration's value with one. */
  lemma ConfigurationJsonKeys(c: Option<Configuration>)
    ensures ConfigurationJson(c).Keys == ConfigurationKeys
    ensures c.None? ==> forall k :: k in ConfigurationJson(c) ==> ConfigurationJson(c)[k] == JNull
    ensures c.Some? ==> && ConfigurationJson(c)["ultrasonicSensor1Enabled"] == JBool(c.value.ultrasonicSensor1Enabled)
                        && ConfigurationJson(c)["ultrasonicSensor2Enabled"] == JBool(c.value.ultrasonicSensor2Enabled)
                        && ConfigurationJson(c)["ultrasonicSensor3Enabled"] == JBool(c.value.ultrasonicSensor3Enabled)
                        && ConfigurationJson(c)["ultrasonicSensor4Enabled"] == JBool(c.value.ultrasonicSensor4Enabled)
                        && ConfigurationJson(c)["magneticSwitchEnabled"] == JBool(c.value.magneticSwitchEnabled)
                        && ConfigurationJson(c)["experimentDuration"] == JNumber(c.value.experimentDuration)
                        && ConfigurationJson(c)["dataAcquisitionRate"] == JNumber(c.value.dataAcquisitionRate)
  {
  }

  /** The details dictionary before nil values are dropped. */
  function DetailsFields(experimentID: string, e: ExperimentRecord): map<string, Option<Json>>
  {
    map["id" := Some(JString(experimentID)),
        "name" := OptionalString(e.name),
        "notes" := OptionalString(e.notes),
        "startTime" := OptionalTimestamp(e.startTime),
        "endTime" := OptionalTimestamp(e.endTime),
        "status" := OptionalString(e.status),
        "configuration" := Some(JObject(ConfigurationJson(e.configuration)))]
  }

  function DetailsPayload(experimentID: string, e: ExperimentRecord): map<string, Json>
  {
    CompactMapValues(DetailsFields(experimentID, e))
  }

  /** The details payload holds "id" and "configuration" always, and each
      other attribute exactly when the experiment has it. */
  lemma DetailsPayloadKeys(experimentID: string, e: ExperimentRecord)
    ensures var p := DetailsPayload(experimentID, e);
      && p.Keys <= {"id", "name", "notes", "startTime", "endTime", "status", "configuration"}
      && "id" in p && p["id"] == JString(experimentID)
      && "configuration" in p && p["configuration"] == JObject(ConfigurationJson(e.configuration))
      && ("name" in p <==> e.name.Some?) && (e.name.Some? ==> p["name"] == JString(e.name.value))
      && ("notes" in p <==> e.notes.Some?) && (e.notes.Some? ==> p["notes"] == JString(e.notes.value))
      && ("status" in p <==> e.status.Some?) && (e.status.Some? ==> p["status"] == JString(e.status.value))
      && ("startTime" in p <==> e.startTime.Some?)
      && (e.startTime.Some? ==> p["startTime"] == JTimestamp(e.startTime.value))
      && ("endTime" in p <==> e.endTime.Some?)
      && (e.endTime.Some? ==> p["endTime"] == JTimestamp(e.endTime.value))
  {
    var m := DetailsFields(experimentID, e);
    assert m.Keys == {"id", "name", "notes", "startTime", "endTime", "status", "configuration"};
  }

  /** One sensor data point; a missing timestamp is written as null. */
  function PointJson(p: SensorDataPoint): Json
  {
    JObject(map["timestamp" := (if p.timestamp.None? then JNull else JTimestamp(p.timestamp.value)),
                "ultrasonic1" := JNumber(p.ultrasonic1),
                "ultrasonic2" := JNumber(p.ultrasonic2),
                "ultrasonic3" := JNumber(p.ultrasonic3),
                "ultrasonic4" := JNumber(p.ultrasonic4),
                "magneticSwitch" := JBool(p.magneticSwitch)])
  }

  /** `points.map { ... }`: one JSON object per point, in order. */
  function PointsJson(points: seq<SensorDataPoint>): (r: seq<Json>)
    ensures |r| == |points|
    ensures forall i :: 0 <= i < |points| ==> r[i] == PointJson(points[i])
  {
    if points == [] then [] else [PointJson(points[0])] + PointsJson(points[1..])
  }

  function SensorPayload(experimentID: string, points: seq<SensorDataPoint>): map<string, Json>
  {
    map["experiment_id" := JString(experimentID), "sensor_data" := JArray(PointsJson(points))]
  }

  /** The sensor payload has exactly the keys "experiment_id" and
      "sensor_data", the latter with one entry per point, in order. */
  lemma SensorPayloadShape(experimentID: string, points: seq<SensorDataPoint>)
    ensures var p := SensorPayload(experimentID, points);
      && p.Keys == {"experiment_id", "sensor_data"}
      && p["experiment_id"] == JString(experimentID)
      && p["sensor_data"].JArray?
      && |p["sensor_data"].items| == |points|
      && forall i :: 0 <= i < |points| ==> p["sensor_data"].items[i] == PointJson(points[i])
  {
  }

  function MetadataFields(experimentID: string, m: ExperimentMetadata): map<string, Option<Json>>
  {
    map["experiment_id" := Some(JString(experimentID)),
        "deviceID" := OptionalString(m.deviceID),
        "location" := OptionalString(m.location),
        "experimenter" := OptionalString(m.experimenter)]
  }

  function MetadataPayload(experimentID: string, m: ExperimentMetadata): map<string, Json>
  {
    CompactMapValues(MetadataFields(experimentID, m))
  }

  /** The metadata payload holds "experiment_id" always, and each other
      attribute exactly when the metadata has it. */
  lemma MetadataPayloadKeys(experimentID: string, m: ExperimentMetadata)
    ensures var p := MetadataPayload(experimentID, m);
      && p.Keys <= {"experiment_id", "deviceID", "location", "experimenter"}
      && "experiment_id" in p && p["experiment_id"] == JString(experimentID)
      && ("deviceID" in p <==> m.deviceID.Some?) && (m.deviceID.Some? ==> p["deviceID"] == JString(m.deviceID.value))
      && ("location" in p <==> m.location.Some?) && (m.location.Some? ==> p["location"] == JString(m.location.value))
      && ("experimenter" in p <==> m.experimenter.Some?)
      && (m.experimenter.Some? ==> p["experimenter"] == JString(m.experimenter.value))
  {
    var f := MetadataFields(experimentID, m);
    assert f.Keys == {"experiment_id", "deviceID", "location", "experimenter"};
  }

  // ----- the requests each sender makes -----

  function JsonRequest(base: Url, component: string, payload: map<string, Json>): Request
  {
    Request(Endpoint(base, component), "POST", "application/json", JsonBody(payload))
  }

  /** `sendExperimentDetails`: nothing without an id. */
  function DetailsRequest(base: Url, e: ExperimentRecord): Option<Request>
  {
    match e.id
    case None => None
    case Some(id) => Some(JsonRequest(base, "experiment_details", DetailsPayload(id.uuidString, e)))
  }

  /** The upload request for a file whose bytes were read, with the UUID
      made for this experiment id and file URL as boundary. */
  function UploadRequest(base: Url, experimentID: string, fileType: string, fileUrl: FileUrl,
                         fileData: seq<byte>, env: Environment): Request
  {
    var boundary := env.newBoundary(experimentID, fileUrl).uuidString;
    var checksum := Hex(env.md5(fileData));
    Request(Endpoint(base, "file_upload"), "POST", ContentType(boundary),
            FormData(Serialize(boundary, UploadParts(experimentID, fileType, checksum,
                                                     fileUrl.lastPathComponent, fileData))))
  }

  /** `sendFile`: nothing without an id or when the file cannot be read. */
  function FileRequest(base: Url, e: ExperimentRecord, fileUrl: FileUrl, fileType: string,
                       env: Environment): Option<Request>
  {
    match e.id
    case None => None
    case Some(id) =>
      match env.readFile(fileUrl)
      case Failure(_) => None
      case Success(fileData) => Some(UploadRequest(base, id.uuidString, fileType, fileUrl, fileData, env))
  }

  /** `sendSensorData`: nothing without an id. */
  function SensorRequest(base: Url, e: ExperimentRecord, points: seq<SensorDataPoint>): Option<Request>
  {
    match e.id
    case None => None
    case Some(id) => Some(JsonRequest(base, "sensor_data", SensorPayload(id.uuidString, points)))
  }

  /** `sendMetadata`: nothing without an id. */
  function MetadataRequest(base: Url, e: ExperimentRecord, m: ExperimentMetadata): Option<Request>
  {
    match e.id
    case None => None
    case Some(id) => Some(JsonRequest(base, "metadata", MetadataPayload(id.uuidString, m)))
  }

  /** The video file an experiment refers to, when its path parses as a URL. */
  function VideoUrl(e: ExperimentRecord, env: Environment): Option<FileUrl>
  {
    match e.videoPath
    case None => None
    case Some(path) => env.parseUrl(path)
  }

  /** One call `syncExperiment` makes of a sender, with the arguments
      other than the experiment and the server URL. */
  datatype Call =
    | DetailsCall
    | FileCall(fileUrl: FileUrl, fileType: string)
    | SensorCall(points: seq<SensorDataPoint>)
    | MetadataCall(metadata: ExperimentMetadata)

  /** The call of `sendFile` for the experiment's video, when its path
      parses as a URL. */
  function FileCalls(e: ExperimentRecord, env: Environment): seq<Call>
  {
    match VideoUrl(e, env)
    case None => []
    case Some(u) => [FileCall(u, "video")]
  }

  /** The call of `sendSensorData` for the experiment's point, if any. */
  function SensorCalls(e: ExperimentRecord): seq<Call>
  {
    match e.sensorData
    case None => []
    case Some(p) => [SensorCall([p])]
  }

  /** The call of `sendMetadata` for the experiment's metadata, if any. */
  function MetadataCalls(e: ExperimentRecord): seq<Call>
  {
    match e.metadata
    case None => []
    case Some(m) => [MetadataCall(m)]
  }

  /** The calls of `syncExperiment`, in order. */
  function ExperimentCalls(e: ExperimentRecord, env: Environment): seq<Call>
  {
    [DetailsCall] + FileCalls(e, env) + SensorCalls(e) + MetadataCalls(e)
  }

  /** The request a call sends, if any. */
  function CallRequest(base: Url, e: ExperimentRecord, c: Call, env: Environment): Option<Request>
  {
    match c
    case DetailsCall => DetailsRequest(base, e)
    case FileCall(u, t) => FileRequest(base, e, u, t, env)
    case SensorCall(points) => SensorRequest(base, e, points)
    case MetadataCall(m) => MetadataRequest(base, e, m)
  }

  /** The requests a run of calls sends, in order. */
  function Issued(base: Url, e: ExperimentRecord, cs: seq<Call>, env: Environment): seq<Request>
  {
    if cs == [] then [] else OptionToSeq(CallRequest(base, e, cs[0], env)) + Issued(base, e, cs[1..], env)
  }

  /** `syncExperiment`: the requests for one experiment, in the order they
      are sent. */
  function ExperimentRequests(base: Url, e: ExperimentRecord, env: Environment): seq<Request>
  {
    Issued(base, e, ExperimentCalls(e, env), env)
  }

  /** The request of `sendFile` for the experiment's video, when its path
      parses as a URL. */
  function FileStage(base: Url, e: ExperimentRecord, env: Environment): seq<Request>
  {
    match VideoUrl(e, env)
    case None => []
    case Some(u) => OptionToSeq(FileRequest(base, e, u, "video", env))
  }

  /** The request of `sendSensorData` for the experiment's point, if any. */
  function SensorStage(base: Url, e: ExperimentRecord): seq<Request>
  {
    match e.sensorData
    case None => []
    case Some(p) => OptionToSeq(SensorRequest(base, e, [p]))
  }

  /** The request of `sendMetadata` for the experiment's metadata, if any. */
  function MetadataStage(base: Url, e: ExperimentRecord): seq<Request>
  {
    match e.metadata
    case None => []
    case Some(m) => OptionToSeq(MetadataRequest(base, e, m))
  }

  /** The requests for a sequence of experiments when `step(e)` are the
      requests for experiment e: each experiment's after the previous one's. */
  function Sequenced(step: ExperimentRecord -> seq<Request>, es: seq<ExperimentRecord>): seq<Request>
  {
    if es == [] then [] else Sequenced(step, es[..|es| - 1]) + step(es[|es| - 1])
  }

  function Step(base: Url, env: Environment): ExperimentRecord -> seq<Request>
  {
    e => ExperimentRequests(base, e, env)
  }

  /** `syncAllData`'s loop: every experiment's requests, in fetch order. */
  function Plan(base: Url, es: seq<ExperimentRecord>, env: Environment): seq<Request>
  {
    Sequenced(Step(base, env), es)
  }

  // ----- properties of the plan -----

  function Components(rs: seq<Request>): (r: seq<string>)
    ensures |r| == |rs|
    ensures forall i :: 0 <= i < |rs| ==> r[i] == rs[i].url.component
  {
    if rs == [] then [] else [rs[0].url.component] + Components(rs[1..])
  }

  lemma {:induction false} ComponentsAppend(a: seq<Request>, b: seq<Request>)
    ensures Components(a + b) == Components(a) + Components(b)
  {
    if a != [] {
      assert (a + b)[1..] == a[1..] + b;
      ComponentsAppend(a[1..], b);
    }
  }

  /** The requests of a run of calls followed by another are the first
      run's followed by the second's. */
  lemma {:induction false} IssuedAppend(base: Url, e: ExperimentRecord, a: seq<Call>, b: seq<Call>, env: Environment)
    ensures Issued(base, e, a + b, env) == Issued(base, e, a, env) + Issued(base, e, b, env)
  {
    if a == [] {
      assert a + b == b;
    } else {
      assert (a + b)[0] == a[0];
      assert (a + b)[1..] == a[1..] + b;
      IssuedAppend(base, e, a[1..], b, env);
    }
  }

  lemma IssuedOne(base: Url, e: ExperimentRecord, c: Call, env: Environment)
    ensures Issued(base, e, [c], env) == OptionToSeq(CallRequest(base, e, c, env))
  {
    assert [c][1..] == [];
  }

  lemma FileCallsIssue(base: Url, e: ExperimentRecord, env: Environment)
    ensures Issued(base, e, FileCalls(e, env), env) == FileStage(base, e, env)
  {
    if VideoUrl(e, env).Some? {
      IssuedOne(base, e, FileCall(VideoUrl(e, env).value, "video"), env);
    }
  }

  lemma SensorCallsIssue(base: Url, e: ExperimentRecord, env: Environment)
    ensures Issued(base, e, SensorCalls(e), env) == SensorStage(base, e)
  {
    if e.sensorData.Some? {
      IssuedOne(base, e, SensorCall([e.sensorData.value]), env);
    }
  }

  lemma MetadataCallsIssue(base: Url, e: ExperimentRecord, env: Environment)
    ensures Issued(base, e, MetadataCalls(e), env) == MetadataStage(base, e)
  {
    if e.metadata.Some? {
      IssuedOne(base, e, MetadataCall(e.metadata.value), env);
    }
  }

  lemma ExperimentCallsIssue(base: Url, e: ExperimentRecord, env: Environment)
    ensures ExperimentRequests(base, e, env)
         == Issued(base, e, [DetailsCall], env) + Issued(base, e, FileCalls(e, env), env)
            + Issued(base, e, SensorCalls(e), env) + Issued(base, e, MetadataCalls(e), env)
  {
    var f := FileCalls(e, env);
    var s := SensorCalls(e);
    IssuedAppend(base, e, [DetailsCall] + f + s, MetadataCalls(e), env);
    IssuedAppend(base, e, [DetailsCall] + f, s, env);
    IssuedAppend(base, e, [DetailsCall], f, env);
  }

  /** An experiment's requests are its details request, then those of its
      video, its sensor point and its metadata. */
  lemma ExperimentRequestsStages(base: Url, e: ExperimentRecord, env: Environment)
    ensures ExperimentRequests(base, e, env)
         == OptionToSeq(DetailsRequest(base, e)) + FileStage(base, e, env) + SensorStage(base, e) + MetadataStage(base, e)
  {
    ExperimentCallsIssue(base, e, env);
    IssuedOne(base, e, DetailsCall, env);
    FileCallsIssue(base, e, env);
    SensorCallsIssue(base, e, env);
    MetadataCallsIssue(base, e, env);
  }

  /** Sequencing a concatenation gives the first half's requests followed
      by the second half's. */
  lemma {:induction false} SequencedAppend(step: ExperimentRecord -> seq<Request>,
                                           a: seq<ExperimentRecord>, b: seq<ExperimentRecord>)
    ensures Sequenced(step, a + b) == Sequenced(step, a) + Sequenced(step, b)
    decreases |b|
  {
    if b == [] {
      assert a + b == a;
    } else {
      var ab := a + b;
      assert ab[..|ab| - 1] == a + b[..|b| - 1];
      assert ab[|ab| - 1] == b[|b| - 1];
      SequencedAppend(step, a, b[..|b| - 1]);
    }
  }

  lemma SequencedOne(step: ExperimentRecord -> seq<Request>, e: ExperimentRecord)
    ensures Sequenced(step, [e]) == step(e)
  {
    assert [e][..0] == [];
  }

  /** Experiments are processed in fetch order: the first experiment's
      requests all come before any of the rest's. */
  lemma PlanCons(base: Url, e: ExperimentRecord, es: seq<ExperimentRecord>, env: Environment)
    ensures Plan(base, [e] + es, env) == ExperimentRequests(base, e, env) + Plan(base, es, env)
  {
    SequencedAppend(Step(base, env), [e], es);
    SequencedOne(Step(base, env), e);
  }

  /** One more experiment adds its requests at the end. */
  lemma PlanSnoc(base: Url, es: seq<ExperimentRecord>, i: nat, env: Environment)
    requires i < |es|
    ensures Plan(base, es[..i + 1], env) == Plan(base, es[..i], env) + ExperimentRequests(base, es[i], env)
  {
    assert es[..i + 1][..i] == es[..i];
  }

  /** Whether `sendFile` reads a file and so sends an upload. */
  predicate SendsFile(e: ExperimentRecord, env: Environment)
  {
    VideoUrl(e, env).Some? && env.readFile(VideoUrl(e, env).value).Success?
  }

  /** All of an experiment's requests are POSTs to the server it was given. */
  predicate PostsTo(rs: seq<Request>, base: Url)
  {
    forall i :: 0 <= i < |rs| ==> rs[i].url.base == base && rs[i].httpMethod == "POST"
  }

  lemma FileStageShape(base: Url, e: ExperimentRecord, env: Environment)
    ensures Components(FileStage(base, e, env)) == if e.id.Some? && SendsFile(e, env) then ["file_upload"] else []
    ensures PostsTo(FileStage(base, e, env), base)
  {
  }

  lemma DetailsStageShape(base: Url, e: ExperimentRecord)
    ensures Components(OptionToSeq(DetailsRequest(base, e))) == if e.id.Some? then ["experiment_details"] else []
    ensures PostsTo(OptionToSeq(DetailsRequest(base, e)), base)
  {
  }

  lemma SensorStageShape(base: Url, e: ExperimentRecord)
    ensures Components(SensorStage(base, e)) == if e.id.Some? && e.sensorData.Some? then ["sensor_data"] else []
    ensures PostsTo(SensorStage(base, e), base)
  {
  }

  lemma MetadataStageShape(base: Url, e: ExperimentRecord)
    ensures Components(MetadataStage(base, e)) == if e.id.Some? && e.metadata.Some? then ["metadata"] else []
    ensures PostsTo(MetadataStage(base, e), base)
  {
  }

  lemma PostsToAppend(a: seq<Request>, b: seq<Request>, base: Url)
    requires PostsTo(a, base) && PostsTo(b, base)
    ensures PostsTo(a + b, base)
  {
    forall i | 0 <= i < |a + b|
      ensures (a + b)[i].url.base == base && (a + b)[i].httpMethod == "POST"
    {
      if i >= |a| {
        assert (a + b)[i] == b[i - |a|];
      }
    }
  }

  /** Per experiment the endpoints are, in this order: the details always,
      the file when the video path parses and the file is read, the sensor
      data when there is a point and the metadata when there is metadata;
      nothing at all for an experiment without id; and every request is a
      POST to the given server. */
  lemma ExperimentRequestsOrder(base: Url, e: ExperimentRecord, env: Environment)
    ensures Components(ExperimentRequests(base, e, env))
         == if e.id.None? then []
            else ["experiment_details"]
                 + (if SendsFile(e, env) then ["file_upload"] else [])
                 + (if e.sensorData.Some? then ["sensor_data"] else [])
                 + (if e.metadata.Some? then ["metadata"] else [])
    ensures PostsTo(ExperimentRequests(base, e, env), base)
  {
    var d := OptionToSeq(DetailsRequest(base, e));
    var f := FileStage(base, e, env);
    var s := SensorStage(base, e);
    var m := MetadataStage(base, e);
    ExperimentRequestsStages(base, e, env);
    FileStageShape(base, e, env);
    DetailsStageShape(base, e);
    SensorStageShape(base, e);
    MetadataStageShape(base, e);
    ComponentsAppend(d + f + s, m);
    ComponentsAppend(d + f, s);
    ComponentsAppend(d, f);
    PostsToAppend(d, f, base);
    PostsToAppend(d + f, s, base);
    PostsToAppend(d + f + s, m, base);
  }

  /** An experiment without id produces no request from any sender. */
  lemma NoIdNoRequests(base: Url, e: ExperimentRecord, env: Environment)
    requires e.id.None?
    ensures ExperimentRequests(base, e, env) == []
  {
    ExperimentRequestsStages(base, e, env);
  }

  lemma {:induction false} SequencedEmpty(step: ExperimentRecord -> seq<Request>, es: seq<ExperimentRecord>)
    requires forall i :: 0 <= i < |es| ==> step(es[i]) == []
    ensures Sequenced(step, es) == []
  {
    if es != [] {
      SequencedEmpty(step, es[..|es| - 1]);
    }
  }

  /** Experiments without id produce no requests at all. */
  lemma PlanWithoutIds(base: Url, es: seq<ExperimentRecord>, env: Environment)
    requires forall i :: 0 <= i < |es| ==> es[i].id.None?
    ensures Plan(base, es, env) == []
  {
    forall i | 0 <= i < |es|
      ensures Step(base, env)(es[i]) == []
    {
      NoIdNoRequests(base, es[i], env);
    }
    SequencedEmpty(Step(base, env), es);
  }

  // ----- the upload request -----

  /** A server that reads the boundary from the upload's Content-Type and
      splits the body with it gets back the four fields: the experiment's id,
      the file type, a 32-digit checksum that denotes the file's MD5 digest,
      and the file's bytes unmodified. */
  lemma UploadRequestReadBack(base: Url, experimentID: string, fileType: string, fileUrl: FileUrl,
                              fileData: seq<byte>, env: Environment, boundary: string, checksum: string)
    requires boundary == env.newBoundary(experimentID, fileUrl).uuidString && '\r' !in boundary
    requires checksum == Hex(env.md5(fileData)) && '\r' !in fileUrl.lastPathComponent
    requires var parts := UploadParts(experimentID, fileType, checksum, fileUrl.lastPathComponent, fileData);
      forall i :: 0 <= i < |parts| ==> NoOccurrence(Delimiter(boundary), PartBytes(parts[i]))
    ensures var r := UploadRequest(base, experimentID, fileType, fileUrl, fileData, env);
      && r.url == Endpoint(base, "file_upload") && r.httpMethod == "POST" && r.body.FormData?
      && BoundaryParameter(r.contentType) == Some(boundary)
      && Parse(boundary, r.body.bytes)
         == Some(UploadParts(experimentID, fileType, checksum, fileUrl.lastPathComponent, fileData))
    ensures |checksum| == 32 && FromHex(checksum) == Some(env.md5(fileData))
  {
    BoundaryParameterOfContentType(boundary);
    ParseOfUploadParts(boundary, experimentID, fileType, checksum, fileUrl.lastPathComponent, fileData);
    DigestChecksumLength(env.md5(fileData));
    FromHexOfHex(env.md5(fileData));
  }

  // ----- the engine -----

  lemma Stages(r0: seq<Request>, d: seq<Request>, f: seq<Request>, s: seq<Request>, m: seq<Request>)
    ensures r0 + d + f + s + m == r0 + (d + f + s + m)
  {
  }

  lemma AppendAssoc<T>(a: seq<T>, b: seq<T>, c: seq<T>)
    ensures a + b + c == a + (b + c)
  {
  }

  lemma AppendNothing<T>(s: seq<T>)
    ensures s + [] == s
  {
  }

  lemma WholePrefix<T>(s: seq<T>)
    ensures s[..|s|] == s
  {
  }

  class DataSyncManager {
    var syncStatus: string
    ghost var statusHistory: seq<string>
    var requests: seq<Request>

    constructor ()
      ensures syncStatus == "Idle" && statusHistory == [] && requests == []
    {
      syncStatus := "Idle";
      statusHistory := [];
      requests := [];
    }

    method SetStatus(status: string)
      modifies this
      ensures syncStatus == status && statusHistory == old(statusHistory) + [status]
      ensures requests == old(requests)
    {
      syncStatus := status;
      statusHistory := statusHistory + [status];
    }

    /** `URLSession.shared.data(for:)` and the 200 check. */
    method Send(request: Request, env: Environment) returns (outcome: SendOutcome)
      modifies this
      ensures requests == old(requests) + [request]
      ensures outcome == Classify(env.transport(|old(requests)|, request))
      ensures syncStatus == old(syncStatus) && statusHistory == old(statusHistory)
    {
      var reply := env.transport(|requests|, request);
      requests := requests + [request];
      outcome := Classify(reply);
    }

    /** `syncAllData`: "Syncing...", then every fetched experiment in order,
        then "Sync Complete!" whatever the sends gave; or, when the fetch
        fails, no experiment and "Sync Failed: " with the error. */
    method SyncAllData(serverURL: Url, fetch: Result<seq<ExperimentRecord>, string>, env: Environment)
      modifies this
      ensures statusHistory == old(statusHistory) + ["Syncing...", syncStatus]
      ensures fetch.Success? ==>
                syncStatus == "Sync Complete!"
                && requests == old(requests) + Plan(serverURL, fetch.value, env)
      ensures fetch.Failure? ==> syncStatus == "Sync Failed: " + fetch.error && requests == old(requests)
    {
      SetStatus("Syncing...");
      match fetch
      case Failure(error) =>
        SetStatus("Sync Failed: " + error);
      case Success(experiments) =>
        var i := 0;
        while i < |experiments|
          invariant 0 <= i <= |experiments|
          invariant requests == old(requests) + Plan(serverURL, experiments[..i], env)
          invariant syncStatus == "Syncing..." && statusHistory == old(statusHistory) + ["Syncing..."]
        {
          SyncExperiment(experiments[i], serverURL, env);
          PlanSnoc(serverURL, experiments, i, env);
          AppendAssoc(old(requests), Plan(serverURL, experiments[..i], env),
                      ExperimentRequests(serverURL, experiments[i], env));
          i := i + 1;
        }
        WholePrefix(experiments);
        SetStatus("Sync Complete!");
    }

    /** `syncExperiment`: details, then the video, the sensor point and the
        metadata when there are any. */
    method SyncExperiment(e: ExperimentRecord, serverURL: Url, env: Environment)
      modifies this
      ensures requests == old(requests) + ExperimentRequests(serverURL, e, env)
      ensures syncStatus == old(syncStatus) && statusHistory == old(statusHistory)
    {
      var outcome := SendExperimentDetails(e, serverURL, env);
      ghost var r1 := requests;
      if e.videoPath.Some? {
        var videoURL := env.parseUrl(e.videoPath.value);
        if videoURL.Some? {
          outcome := SendFile(videoURL.value, "video", e, serverURL, env);
        } else {
          AppendNothing(requests);
        }
      } else {
        AppendNothing(requests);
      }
      assert requests == r1 + FileStage(serverURL, e, env);
      ghost var r2 := requests;
      if e.sensorData.Some? {
        outcome := SendSensorData([e.sensorData.value], e, serverURL, env);
      } else {
        AppendNothing(requests);
      }
      assert requests == r2 + SensorStage(serverURL, e);
      ghost var r3 := requests;
      if e.metadata.Some? {
        outcome := SendMetadata(e.metadata.value, e, serverURL, env);
      } else {
        AppendNothing(requests);
      }
      assert requests == r3 + MetadataStage(serverURL, e);
      ExperimentRequestsStages(serverURL, e, env);
      Stages(old(requests), OptionToSeq(DetailsRequest(serverURL, e)), FileStage(serverURL, e, env),
             SensorStage(serverURL, e), MetadataStage(serverURL, e));
    }

    method SendExperimentDetails(e: ExperimentRecord, serverURL: Url, env: Environment)
      returns (outcome: SendOutcome)
      modifies this
      ensures requests == old(requests) + OptionToSeq(DetailsRequest(serverURL, e))
      ensures e.id.None? ==> outcome == Skipped
      ensures e.id.Some? ==> outcome == Classify(env.transport(|old(requests)|, DetailsRequest(serverURL, e).value))
      ensures syncStatus == old(syncStatus) && statusHistory == old(statusHistory)
    {
      if e.id.None? {
        return Skipped;
      }
      var experimentID := e.id.value.uuidString;
      var details := DetailsFields(experimentID, e);
      var request := JsonRequest(serverURL, "experiment_details", CompactMapValues(details));
      outcome := Send(request, env);
    }

    method SendFile(fileURL: FileUrl, fileType: string, e: ExperimentRecord, serverURL: Url, env: Environment)
      returns (outcome: SendOutcome)
      modifies this
      ensures requests == old(requests) + OptionToSeq(FileRequest(serverURL, e, fileURL, fileType, env))
      ensures e.id.None? ==> outcome == Skipped
      ensures e.id.Some? && env.readFile(fileURL).Failure? ==> outcome == ReadFailed(env.readFile(fileURL).error)
      ensures FileRequest(serverURL, e, fileURL, fileType, env).Some? ==>
                outcome == Classify(env.transport(|old(requests)|,
                                                  FileRequest(serverURL, e, fileURL, fileType, env).value))
      ensures syncStatus == old(syncStatus) && statusHistory == old(statusHistory)
    {
      if e.id.None? {
        return Skipped;
      }
      var experimentID := e.id.value.uuidString;
      var read := env.readFile(fileURL);
      if read.Failure? {
        return ReadFailed(read.error);
      }
      var fileData := read.value;
      var checksum := Hex(env.md5(fileData));
      var boundary := env.newBoundary(experimentID, fileURL).uuidString;
      var contentType := ContentType(boundary);
      var body := AssembleUploadBody(boundary, experimentID, fileType, checksum,
                                     fileURL.lastPathComponent, fileData);
      var request := Request(Endpoint(serverURL, "file_upload"), "POST", contentType, FormData(body));
      outcome := Send(request, env);
    }

    method SendSensorData(sensorDataPoints: seq<SensorDataPoint>, e: ExperimentRecord, serverURL: Url,
                          env: Environment)
      returns (outcome: SendOutcome)
      modifies this
      ensures requests == old(requests) + OptionToSeq(SensorRequest(serverURL, e, sensorDataPoints))
      ensures e.id.None? ==> outcome == Skipped
      ensures e.id.Some? ==>
                outcome == Classify(env.transport(|old(requests)|, SensorRequest(serverURL, e, sensorDataPoints).value))
      ensures syncStatus == old(syncStatus) && statusHistory == old(statusHistory)
    {
      if e.id.None? {
        return Skipped;
      }
      var experimentID := e.id.value.uuidString;
      var dataPoints := PointsJson(sensorDataPoints);
      var payload := map["experiment_id" := JString(experimentID), "sensor_data" := JArray(dataPoints)];
      var request := JsonRequest(serverURL, "sensor_data", payload);
      outcome := Send(request, env);
    }

    method SendMetadata(metadata: ExperimentMetadata, e: ExperimentRecord, serverURL: Url, env: Environment)
      returns (outcome: SendOutcome)
      modifies this
      ensures requests == old(requests) + OptionToSeq(MetadataRequest(serverURL, e, metadata))
      ensures e.id.None? ==> outcome == Skipped
      ensures e.id.Some? ==>
                outcome == Classify(env.transport(|old(requests)|, MetadataRequest(serverURL, e, metadata).value))
      ensures syncStatus == old(syncStatus) && statusHistory == old(statusHistory)
    {
      if e.id.None? {
        return Skipped;
      }
      var experimentID := e.id.value.uuidString;
      var metadataDetails := MetadataFields(experimentID, metadata);
      var request := JsonRequest(serverURL, "metadata", CompactMapValues(metadataDetails));
      outcome := Send(request, env);
    }
  }
}
