# Flume app client core, in Dafny

This project models the client side of an iOS app that runs flume
experiments. The app keeps experiment records and syncs them to a lab
server. It also sends start and stop commands to the rig and shows the rig's
event stream. The model covers this behaviour:

- **Sync engine** (`DataSyncManager`, module `Sync`). For every fetched
  experiment, in fetch order, it sends up to four POST requests:
  - the experiment's details, always;
  - its video file, as a `multipart/form-data` upload, when the video path
    parses and the file can be read;
  - its sensor data point, when there is one;
  - its metadata, when there is any.

  Every send is skipped when the experiment has no id. `syncStatus` moves
  from "Syncing..." to "Sync Complete!", or to "Sync Failed: ..." when the
  fetch fails.
- **Supporting definitions for the sync engine**:
  - JSON payloads are key/value maps with the nil entries dropped;
  - the upload body is written byte for byte (module `UploadBody`, on
    `Multipart`). A parser is its partner, and the round trip is proved;
  - the MD5 checksum is written as lower-case hexadecimal (module
    `Checksum`), and a hex reader is its partner;
  - UTF-8 encoding and decoding are in module `Bytes`, and the decimal text
    of integers is in module `Decimal`.
- **Event-stream client** (`SSEClient`, module `Sse`). Its completion
  handler maps the transport error, an HTTP status outside 2xx, or a missing
  or non-UTF-8 body to a status message. Otherwise it cuts the body into
  lines and keeps the trimmed value of the last `data:` line.
- **REST client** (`RESTClient`, module `Rest`). A request is built only
  when its body encodes. The reply then passes through a fixed chain of
  guards, and the first guard that fails decides the `Result`. The fixed
  "command" request is built on top of this.
- **Wi-Fi manager** (`WiFiManager`, module `WiFi`). It holds a target
  network name and a "connected" flag that mirrors whether a target is set,
  plus a polling timer.
- **Experiment status codec** (`ExperimentStatus`, module `Status`).
- **Record rules in the views**:
  - the detail view's control button: start or stop, and the record
    changes only when the command succeeds (module `DetailView`);
  - the creation view: it fills the form from the experiment being edited,
    and Save writes the form into that record or into a new one (module
    `CreationView`). Save is disabled exactly while the name is empty
    (`CreationView.IsSaveDisabled`);
  - the sensor list: points ascending by timestamp, with a missing
    timestamp counting as `Date.distantPast` (module `SensorList`).

The Core Data records are in module `Records`:

- an experiment and its configuration are classes, because the views
  change them in place;
- the sensor point and the metadata are values;
- `Experiment.Snapshot()` is the value an experiment object holds at one
  moment, and that value is what the sync engine reads.

The server, the file system, URL parsing, MD5 and `UUID()` are not
modelled.
- In the sync engine they are the functions of an `Environment` the caller
  supplies.
- In the REST client they are the `CommandServices` the caller supplies.
- In the SSE client the reply is a parameter of `HandleCompletion`.
- `Date()` is the parameter `now`.
- Every request the sync engine sends is appended to the log `requests`.
- `statusHistory` and the ghost logs of cancelled tasks and invalidated
  timers record what was cancelled or reported.

Points where the code's behaviour is narrower than its names suggest:

- A sync send counts as successful only on status 200 exactly
  (`Sync.Classify`), not on any 2xx. The outcome is only logged.
- An experiment has at most one sensor data point, because the
  relationship is to-one; the sync engine sends it as a one-element array.
- The event-stream client reads one whole body in its completion handler.
  It does not reassemble chunks.
- `ExperimentStatus` has no "Completed" case, yet a stop writes
  "Completed" into the record (`DetailView.StoppedStatusIsNoCase`).
- Swift's `split(separator: "\n")` compares Characters. The pair CR LF is
  one Character and does not cut a line, so only a line feed that does not
  follow a carriage return cuts. `Sse.Segments` models exactly that.

## Model

| member | source | states |
|---|---|---|
| Status.FromRawValue | FlumeApp/FlumeApp/Experiment.swift:4-9 | a string decodes only to a case whose raw value it is, and fails only when no case has it as raw value |
| Status.AllCasesComplete | FlumeApp/FlumeApp/Experiment.swift:5-8 | there are exactly four cases and every status is one of them |
| Status.RawValueInjective | FlumeApp/FlumeApp/Experiment.swift:5-8 | distinct cases have distinct raw values |
| Status.FromRawValueOfRawValue | FlumeApp/FlumeApp/Experiment.swift:4-9 | decoding a case's raw value gives back that case |
| Status.CompletedIsNotACase | FlumeApp/FlumeApp/Experiment.swift:4-9 | "Completed" decodes to no case |
| Records.ExperimentConfiguration.constructor | FlumeApp/ExperimentConfiguration+CoreDataProperties.swift:19-25 | a new configuration object has every switch off and both numbers 0 |
| Records.Experiment.constructor | FlumeApp/Experiment+CoreDataProperties.swift:19-28 | a new experiment object has every attribute nil and no configuration |
| Bytes.Utf8Concat | FlumeApp/FlumeApp/DataSyncManager.swift:99-116 | encoding a concatenation gives the concatenation of the encodings, so the appended UTF-8 pieces encode the whole text |
| Bytes.DecodeUtf8OfUtf8 | FlumeApp/FlumeApp/SSEClient.swift:29 | decoding the UTF-8 encoding of any text gives back that text |
| Decimal.ParseIntOfIntToString | FlumeApp/FlumeApp/SSEClient.swift:23-25 | the decimal text of any integer, negative ones included, parses back to that integer |
| Checksum.HexByte | FlumeApp/FlumeApp/DataSyncManager.swift:91 | a byte is written as exactly two lower-case hexadecimal digits |
| Checksum.Hex | FlumeApp/FlumeApp/DataSyncManager.swift:91 | the checksum text has two lower-case hexadecimal digits per byte and nothing else |
| Checksum.FromHexOfHex | FlumeApp/FlumeApp/DataSyncManager.swift:91 | the checksum text reads back as exactly the digest's bytes |
| Checksum.DigestChecksumLength | FlumeApp/FlumeApp/DataSyncManager.swift:91 | the checksum of a 16-byte MD5 digest is 32 characters long |
| Multipart.SerializeStartsWithDashBoundary | FlumeApp/FlumeApp/DataSyncManager.swift:100 | a serialised body begins with `--` and the boundary |
| Multipart.ParseOfSerialize | FlumeApp/FlumeApp/DataSyncManager.swift:99-116 | when the boundary holds no CR, the header lines are non-empty without CR and no part contains the delimiter, splitting the body at the boundary gives back every part, with its headers and content unchanged, in order |
| UploadBody.BoundaryParameterOfContentType | FlumeApp/FlumeApp/DataSyncManager.swift:96-97 | the boundary announced in the Content-Type header is the one the body uses |
| UploadBody.AssembleUploadBody | FlumeApp/FlumeApp/DataSyncManager.swift:99-116 | the successive appends of the sender produce exactly the serialisation of the four upload parts, ending with the close delimiter |
| UploadBody.OpeningLine | FlumeApp/FlumeApp/DataSyncManager.swift:100 | each part starts with the line `--boundary` CRLF |
| UploadBody.ClosingLines | FlumeApp/FlumeApp/DataSyncManager.swift:116 | the last append is CRLF followed by the close delimiter `--boundary--` CRLF |
| UploadBody.FileField | FlumeApp/FlumeApp/DataSyncManager.swift:113-115 | the file's bytes follow the octet-stream header and its empty line unmodified |
| UploadBody.DispositionNameOf | FlumeApp/FlumeApp/DataSyncManager.swift:101 | the field name written into a disposition header reads back from it |
| UploadBody.UploadFields | FlumeApp/FlumeApp/DataSyncManager.swift:99-115 | the upload has four parts named experiment_id, file_type, checksum and file, in that order, carrying the id, the type, the checksum and the file's bytes |
| UploadBody.ParseOfUploadParts | FlumeApp/FlumeApp/DataSyncManager.swift:96-116 | when neither boundary nor filename holds a CR and no part contains the delimiter, the upload body parses back to its four parts |
| Sync.Classify | FlumeApp/FlumeApp/DataSyncManager.swift:76-81 | a send succeeds exactly on an HTTP response with status 200; a transport error and any other response are failures |
| Sync.CreatedIsNotSynced | FlumeApp/FlumeApp/DataSyncManager.swift:77 | status 201 is in the HTTP success class but is not a successful send |
| Sync.CompactMapValues | FlumeApp/FlumeApp/DataSyncManager.swift:70 | a key is kept exactly when its value is not nil, and it keeps that value |
| Sync.ConfigurationJsonKeys | FlumeApp/FlumeApp/DataSyncManager.swift:58-66 | the configuration dictionary always has its seven keys; all values are null without a configuration, and the configuration's values with one |
| Sync.DetailsPayloadKeys | FlumeApp/FlumeApp/DataSyncManager.swift:51-70 | the details payload always holds "id" and "configuration", and each other attribute exactly when the experiment has it, with its value |
| Sync.PointsJson | FlumeApp/FlumeApp/DataSyncManager.swift:133-142 | one JSON object per sensor point, in order |
| Sync.SensorPayloadShape | FlumeApp/FlumeApp/DataSyncManager.swift:133-147 | the sensor payload has exactly the keys "experiment_id" and "sensor_data", the latter with one entry per point, in order |
| Sync.MetadataPayloadKeys | FlumeApp/FlumeApp/DataSyncManager.swift:169-177 | the metadata payload always holds "experiment_id", and each other attribute exactly when the metadata has it |
| Sync.ExperimentRequestsOrder | FlumeApp/FlumeApp/DataSyncManager.swift:29-47 | per experiment the endpoints are details, then the file when the video path parses and the file reads, then sensor data when present, then metadata when present; nothing without an id; every request is a POST to the given server |
| Sync.NoIdNoRequests | FlumeApp/FlumeApp/DataSyncManager.swift:50 | an experiment without an id produces no request from any of the four senders |
| Sync.PlanCons | FlumeApp/FlumeApp/DataSyncManager.swift:19-21 | the first experiment's requests all come before any request of the later experiments |
| Sync.PlanWithoutIds | FlumeApp/FlumeApp/DataSyncManager.swift:19-21 | experiments without ids produce no requests at all |
| Sync.UploadRequestReadBack | FlumeApp/FlumeApp/DataSyncManager.swift:87-118 | the upload is a POST to file_upload whose Content-Type boundary splits its body back into the four fields; its checksum has 32 digits and denotes the file's MD5 digest |
| Sync.DataSyncManager.constructor | FlumeApp/FlumeApp/DataSyncManager.swift:7-11 | the status starts as "Idle" and no request has been sent |
| Sync.DataSyncManager.Send | FlumeApp/FlumeApp/DataSyncManager.swift:76-77 | the request is appended to the log and the outcome is the classification of the server's reply to it |
| Sync.DataSyncManager.SyncAllData | FlumeApp/FlumeApp/DataSyncManager.swift:13-27 | the status is "Syncing..." first; after a successful fetch it is "Sync Complete!" whatever the sends gave and the log grows by every experiment's requests in fetch order; after a failed fetch it is "Sync Failed: " + the error and nothing is sent |
| Sync.DataSyncManager.SyncExperiment | FlumeApp/FlumeApp/DataSyncManager.swift:29-47 | the log grows by exactly the experiment's requests in the order of `Sync.ExperimentRequestsOrder`; the status is unchanged |
| Sync.DataSyncManager.SendExperimentDetails | FlumeApp/FlumeApp/DataSyncManager.swift:49-85 | without an id nothing is sent and the send is skipped; otherwise the details request is sent and classified |
| Sync.DataSyncManager.SendFile | FlumeApp/FlumeApp/DataSyncManager.swift:87-129 | without an id, or when the file cannot be read, nothing is sent; otherwise the upload request is sent and classified |
| Sync.DataSyncManager.SendSensorData | FlumeApp/FlumeApp/DataSyncManager.swift:131-165 | without an id nothing is sent; otherwise the sensor request is sent and classified |
| Sync.DataSyncManager.SendMetadata | FlumeApp/FlumeApp/DataSyncManager.swift:167-192 | without an id nothing is sent; otherwise the metadata request is sent and classified |
| Sse.Segments | FlumeApp/FlumeApp/SSEClient.swift:36 | there is always at least one segment, and the first is empty exactly when the text is empty or starts with a line feed |
| Sse.JoinSegments | FlumeApp/FlumeApp/SSEClient.swift:36 | joining the segments with line feeds gives back the text, so the cut loses nothing |
| Sse.SegmentsCutAtLineFeeds | FlumeApp/FlumeApp/SSEClient.swift:36 | no segment holds a line feed that is a Character of its own, and no segment but the last ends in CR |
| Sse.NonEmpty | FlumeApp/FlumeApp/SSEClient.swift:36 | empty pieces are dropped: every line is non-empty |
| Sse.NonEmptyKeepsPieces | FlumeApp/FlumeApp/SSEClient.swift:36 | every non-empty segment is kept exactly as often as it occurs, and no empty one is kept |
| Sse.NonEmptyAppend | FlumeApp/FlumeApp/SSEClient.swift:36 | the filter acts on each part of a concatenation separately, so the kept lines stay in text order |
| Sse.NonEmptyOne | FlumeApp/FlumeApp/SSEClient.swift:36 | a non-empty segment is kept as it is |
| Sse.LinesOfOneLine | FlumeApp/FlumeApp/SSEClient.swift:36 | non-empty text without a line feed is a single line |
| Sse.Trim | FlumeApp/FlumeApp/SSEClient.swift:39 | the result is the text with only whitespace and newlines cut from both ends, and neither of its ends is whitespace |
| Sse.TrimIdempotent | FlumeApp/FlumeApp/SSEClient.swift:39 | trimming a trimmed text changes nothing |
| Sse.LastDataIsLastDataLine | FlumeApp/FlumeApp/SSEClient.swift:37-45 | after the loop the message is the trimmed value of the last `data:` line |
| Sse.LastDataWithoutDataLines | FlumeApp/FlumeApp/SSEClient.swift:37-45 | without any `data:` line (only `event:` lines, say) the message is unchanged |
| Sse.ReportedStatus | FlumeApp/FlumeApp/SSEClient.swift:23 | the reported code is the HTTP status, or -1 when the response is not HTTP |
| Sse.ErrorMessage | FlumeApp/FlumeApp/SSEClient.swift:15-19 | a transport error sets "Error: " + its description, whatever the response and data, and no line is parsed |
| Sse.ServerErrorCarriesStatus | FlumeApp/FlumeApp/SSEClient.swift:21-27 | a response that is not 2xx HTTP gives "Server Error: HTTP Status Code " followed by text that parses back to the status (or -1) |
| Sse.NoDataOrInvalidEncoding | FlumeApp/FlumeApp/SSEClient.swift:29-33 | a 2xx response without data, or with bytes that are not UTF-8, gives "No data or invalid encoding." |
| Sse.MessageOfBody | FlumeApp/FlumeApp/SSEClient.swift:29-45 | a 2xx body that is the UTF-8 encoding of a text gives the message of that text's lines |
| Sse.EmptyBodyKeepsMessage | FlumeApp/FlumeApp/SSEClient.swift:36-45 | an empty 2xx body leaves the message as it was |
| Sse.SingleDataLine | FlumeApp/FlumeApp/SSEClient.swift:36-43 | a body of one `data:` line gives what follows the prefix, trimmed |
| Sse.SSEClient.constructor | FlumeApp/FlumeApp/SSEClient.swift:4-5 | the message starts as "No SSE message yet." and there is no task |
| Sse.SSEClient.Connect | FlumeApp/FlumeApp/SSEClient.swift:7-12 | a new event-stream task, asking for `text/event-stream` and ignoring the local cache, replaces the stored one; nothing else changes |
| Sse.SSEClient.Disconnect | FlumeApp/FlumeApp/SSEClient.swift:51-55 | the stored task, if any, is cancelled and forgotten, and the message is unchanged |
| Sse.SSEClient.HandleCompletion | FlumeApp/FlumeApp/SSEClient.swift:12-46 | the new message is the one `Sse.CompletionMessage` gives for the reply, with the loop over the lines proved against `Sse.LastData` |
| Sse.DisconnectTwice | FlumeApp/FlumeApp/SSEClient.swift:51-55 | disconnecting twice leaves no task and cancels nothing more than disconnecting once |
| Rest.ServerErrorDescriptionCarriesCode | FlumeApp/FlumeApp/RESTClient.swift:19-20 | the server-error description is the fixed prefix followed by text that parses back to the status code |
| Rest.PrepareRequest | FlumeApp/FlumeApp/RESTClient.swift:29-40 | the request fails exactly when a body is given and does not encode, and then with a decoding error; otherwise it carries the URL, the method, the JSON content type and the encoded body (none for a nil body) |
| Rest.EncodingFailureMakesNoRequest | FlumeApp/FlumeApp/RESTClient.swift:33-39 | a body that fails to encode gives a decoding error whatever the transport would do |
| Rest.TransportErrorWins | FlumeApp/FlumeApp/RESTClient.swift:43-46 | a transport error gives `requestFailed`, whatever response and data came with it |
| Rest.NonHttpIsInvalid | FlumeApp/FlumeApp/RESTClient.swift:48-51 | without a transport error, a response that is not HTTP gives `invalidResponse` |
| Rest.StatusOutsideSuccessClass | FlumeApp/FlumeApp/RESTClient.swift:53-56 | a status outside 200 to 299 gives `serverError` carrying that exact code |
| Rest.SuccessClassOutcomes | FlumeApp/FlumeApp/RESTClient.swift:58-68 | a 2xx reply without data gives `invalidResponse`; with data, a decode failure gives `decodingError` and a decoded value gives success with that value |
| Rest.SuccessExactly | FlumeApp/FlumeApp/RESTClient.swift:42-69 | a reply succeeds with a value exactly when there is no error, the response is 2xx HTTP, data came and it decodes to that value |
| Rest.ClassifyNeverInvalidURL | FlumeApp/FlumeApp/RESTClient.swift:42-69 | no reply is classified as `invalidURL` |
| Rest.CommandBody | FlumeApp/FlumeApp/RESTClient.swift:79 | the command body has exactly the keys "command" and "value", holding the arguments |
| Rest.SimpleCommandPosts | FlumeApp/FlumeApp/RESTClient.swift:73-85 | with a usable URL and an encodable body, the command POSTs the encoded body to the fixed /command URL, and its outcome is the classification of the reply |
| Rest.SimpleCommandInvalidURL | FlumeApp/FlumeApp/RESTClient.swift:74-77 | without a usable URL the command fails with `invalidURL` |
| WiFi.WiFiManager.constructor | FlumeApp/FlumeApp/WiFiManager.swift:6-12 | not connected, no target network, and the five-second repeating timer scheduled; no status check is made |
| WiFi.WiFiManager.StartMonitoring | FlumeApp/FlumeApp/WiFiManager.swift:18-22 | the stored timer is the five-second repeating one, and the flag and target are unchanged |
| WiFi.WiFiManager.StopMonitoring | FlumeApp/FlumeApp/WiFiManager.swift:24-27 | the stored timer, if any, is invalidated and forgotten, and the flag and the target are unchanged |
| WiFi.WiFiManager.CheckWiFiConnectionStatus | FlumeApp/FlumeApp/WiFiManager.swift:45-50 | the flag becomes exactly whether a target network is set, and the target and the timer are unchanged |
| WiFi.WiFiManager.AddWiFiNetwork | FlumeApp/FlumeApp/WiFiManager.swift:30-35 | the target becomes the SSID and the flag is true; the password is not kept |
| WiFi.WiFiManager.JoinWiFiNetwork | FlumeApp/FlumeApp/WiFiManager.swift:38-42 | the target becomes the SSID and the flag is true |
| WiFi.CheckTwice | FlumeApp/FlumeApp/WiFiManager.swift:45-50 | checking twice leaves the state a single check leaves |
| WiFi.StopTwice | FlumeApp/FlumeApp/WiFiManager.swift:24-27 | stopping twice leaves no timer and invalidates the old timer once |
| DetailView.Ultrasonic1Status | FlumeApp/FlumeApp/ExperimentDetailView.swift:12-14 | "Yes" exactly when a configuration exists with sensor 1 enabled, "No" otherwise |
| DetailView.ControlButtonCommand | FlumeApp/FlumeApp/ExperimentDetailView.swift:61-65 | the button stops exactly when the status is "Running", and starts otherwise |
| DetailView.ControlButtonTitle | FlumeApp/FlumeApp/ExperimentDetailView.swift:67 | the title names the command the button sends |
| DetailView.CommandValue | FlumeApp/FlumeApp/ExperimentDetailView.swift:122 | the command value is the id's text, or "" without an id |
| DetailView.StartExperiment | FlumeApp/FlumeApp/ExperimentDetailView.swift:121-138 | sends "start_experiment" with the id's text; on success the status is "Running" and the start time is now, and on failure the experiment is unchanged |
| DetailView.StopExperiment | FlumeApp/FlumeApp/ExperimentDetailView.swift:140-157 | sends "stop_experiment" with the id's text; on success the status is "Completed" and the end time is now, and on failure the experiment is unchanged |
| DetailView.PressControlButton | FlumeApp/FlumeApp/ExperimentDetailView.swift:60-66 | a running experiment is stopped and any other is started, with the effects above |
| DetailView.FailureChangesNothing | FlumeApp/FlumeApp/ExperimentDetailView.swift:134-136 | a failed command leaves the record as it was |
| DetailView.SuccessfulTransitions | FlumeApp/FlumeApp/ExperimentDetailView.swift:124-127 | a successful start touches only the status and the start time, and makes the button a stop button; a successful stop touches only the status and the end time, makes it a start button and leaves it enabled |
| DetailView.StoppedStatusIsNoCase | FlumeApp/FlumeApp/ExperimentDetailView.swift:145 | the status a stop writes is not the raw value of any `ExperimentStatus` |
| DetailView.RestartDisablesStop | FlumeApp/FlumeApp/ExperimentDetailView.swift:28-30 | after a successful start, stop and start, the experiment is running with the first stop's end time, so its stop button is disabled |
| CreationView.SetupAfterSave | FlumeApp/FlumeApp/ExperimentCreationView.swift:66-78 | editing a record right after saving a form into it shows that form again |
| CreationView.SetupDefaults | FlumeApp/FlumeApp/ExperimentCreationView.swift:66-78 | without a configuration the switches are on, the duration is 60 and the rate 0.1; a missing name or notes reads as "" |
| CreationView.SaveKeepsTheRest | FlumeApp/FlumeApp/ExperimentCreationView.swift:95-106 | saving sets the name, the notes and the configuration to the form's values and keeps id, status, times, video, sensor data and metadata |
| CreationView.SaveEnablement | FlumeApp/FlumeApp/ExperimentCreationView.swift:59 | Save starts disabled, and after `setupView` it is disabled exactly when the edited experiment has no name or an empty one |
| CreationView.NewExperimentIsNotRun | FlumeApp/FlumeApp/ExperimentCreationView.swift:91 | a new experiment's status is the raw value of `notRun` |
| CreationView.ExperimentForm.constructor | FlumeApp/FlumeApp/ExperimentCreationView.swift:11-19 | the form starts empty, with every switch on, duration 60 and rate 0.1 |
| CreationView.ExperimentForm.SetupView | FlumeApp/FlumeApp/ExperimentCreationView.swift:66-78 | with an experiment to edit the form shows that experiment's values and the defaults where it has none; without one the form is unchanged |
| CreationView.ExperimentForm.SaveExperiment | FlumeApp/FlumeApp/ExperimentCreationView.swift:80-106 | a new experiment gets the given id, the start time now, status "Not Run", a new configuration and the form's values; an edited one is the same object, reuses its configuration or gets a new one, and otherwise changes only as the form says |
| CreationView.ExperimentForm.WriteForm | FlumeApp/FlumeApp/ExperimentCreationView.swift:95-106 | the name, the notes and all seven configuration fields take the form's values, and the experiment's configuration is that object |
| SensorList.CompactMapPoints | FlumeApp/FlumeApp/SensorDataListView.swift:20 | the list of points is no longer than the set's objects |
| SensorList.CompactMapKeepsPoints | FlumeApp/FlumeApp/SensorDataListView.swift:20 | each sensor point is kept as often as the set holds it, and objects of other classes are dropped |
| SensorList.SortByTimestampSorted | FlumeApp/FlumeApp/SensorDataListView.swift:20 | the output is ascending by timestamp, a missing timestamp counting as the distant past |
| SensorList.SortByTimestampPermutes | FlumeApp/FlumeApp/SensorDataListView.swift:20 | the output is a permutation of its input |
| SensorList.SortedSensorDataPointsSpec | FlumeApp/FlumeApp/SensorDataListView.swift:19-21 | the list is ascending and holds every sensor point of the set exactly as often as the set does, and nothing else; the detail view's copy (ExperimentDetailView.swift lines 40-42) is the same function |
| SensorList.MagneticSwitchStatus | FlumeApp/FlumeApp/SensorDataListView.swift:27-29 | "On" exactly when the switch is on, "Off" exactly when it is off; the detail view's copy is the same |

## Left out

- HTTP transport: URLSession, its data tasks, `async`/`await` and the
  `DispatchQueue.main.async` hops are not modelled.
  - Each reply is an input: a function of the request's position in the
    log, or a parameter of the completion handler.
  - A hop to the main queue is taken to run at once and in order.
  - Callbacks are delivered as the function's result, so each path yields
    exactly one result.
- `[weak self]`: the object is assumed to be alive when a callback runs.
- MD5 is a function from bytes to 16-byte digests that the caller supplies.
  Only its hexadecimal text is modelled.
- JSON bytes are not modelled.
  - `JSONSerialization`, `JSONEncoder` and `JSONDecoder` produce or read
    bytes; payloads are kept as key/value maps, and the REST client's
    encoder and decoder are supplied functions.
  - The REST client's encoder is a supplied function, and its failure
    enters only as a failing outcome.
- Sync.ExperimentRequestsOrder: the details, sensor and metadata payloads
  are taken to serialise. Readings, durations and rates are finite reals
  here. `JSONSerialization.data(withJSONObject:)` rejects a NaN or infinite
  Double, and the sync engine's handling of that rejection is not modelled.
  On Apple platforms it raises an uncaught exception; elsewhere the sender
  catches a thrown error. Either way no request is sent.
- ISO 8601 formatting of dates: a timestamp is kept as the date it formats.
- `UUID()` and `Date()` are parameters.
  - The upload boundary is a function of the experiment id and the file
    URL.
  - The new experiment's id and the time of save or of a command's reply
    are arguments.
- Core Data:
  - the fetch is an input that may fail;
  - saving the context, `fatalError` on a failed save, and the `@Published`
    and `@State` notifications are not modelled.
- `print` output and the log messages of the sync senders.
- Timer scheduling: a timer is kept as its settings (interval and
  repetition), and calls into `checkWiFiConnectionStatus` made by the timer
  itself are not modelled. `deinit` calls `stopMonitoring`, and object
  lifetime is not modelled.
- Swift's Character segmentation is modelled only as far as the line cut
  needs it: CR LF is one Character. Other grapheme clusters, such as a
  combining mark right after `data:`, are treated as separate scalars.
- `String(data:encoding:)` is modelled as strict UTF-8 decoding. Foundation's
  handling of a byte-order mark is not modelled.
- The detail view's `experiment.sensorData as? NSSet` always fails, because
  the relationship is to-one, so that view never lists points. The sorting
  helper it would call is modelled in module `SensorList`.
- `String(format: "%.2f")`, `experimentDurationText`, the slider ranges and
  the button styles.
  - Durations and rates are real numbers that are only copied.
- The Swift sort is not claimed to be stable. Only ascending order and the
  permutation property are stated.
- URL arithmetic: `appendingPathComponent` is kept as the pair of base and
  component, and `URL(string:)` is a supplied function.
- The camera view, the dashboard and the other pure UI files.
