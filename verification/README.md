# unifi_cam_remote — a Dafny model

`unifi_cam_remote` is a small command-line program for a UniFi Video
appliance. It reads an API key and a host from the environment. It lists the
appliance's cameras and keeps the managed ones. It then turns recording off on
the first managed camera. To do that it fetches the camera's record, leaves it
alone when full-time recording is already off, and otherwise PUTs the record
back with both recording flags cleared.

This project models that logic as pure functions over immutable datatypes.
The network is replaced by input values. A GET is answered by a `Reply`
(no response, an unreadable body, or a JSON value). Whether the PUT could be
sent is a boolean. A run of the program is the list of requests it issues plus
how it ends. Each panic of the program (`expect`, `unwrap`, `assert_eq!`,
`panic!`) becomes a `Failure` value.

Modules, following `src/main.rs`:

- `Wrappers`: `Option` and `Result`.
- `Camera`: the record structs (`CameraResponse`, `CameraResponseMeta`,
  `UnifiCameraData`, `AnalyticsSettings`, `RecordingSettings`), with `u32`
  as the subset type `U32`, and `default_channel`.
- `Wire`: the JSON object shape fixed by the serde derives. JSON is an
  abstract value tree, not text. It covers the wire names (`_id`, camelCase, and the
  un-renamed `data`/`meta`), encoding, decoding, and the round trips.
- `Configuration`: `Config::new`, with the environment as a map from
  variable name to value.
- `Urls`: the two URL templates.
- `Listing`: the managed-camera filter of `get_camera_list`.
- `Toggle`: the decision inside `update_record_setting`.
- `Program`: `update_record_setting`, `turn_recording_on`/`_off`,
  `get_camera_list` and `main`, as runs.

## Model

| member | source | states |
|---|---|---|
| `Wire.AsU32` | src/main.rs:38-40 | a `u32` member decodes only from a number in [0, 2^32); anything else is refused |
| `Wire.MetaRoundTrip` | src/main.rs:15-20 | encoding the list counters (`totalCount`, `filteredCount`) and decoding them gives them back |
| `Wire.AnalyticsRoundTrip` | src/main.rs:34-41 | analytics settings survive encoding and decoding unchanged |
| `Wire.RecordingRoundTrip` | src/main.rs:43-52 | recording settings survive encoding and decoding unchanged, including a `None` channel (sent as null) |
| `Wire.AbsentChannelDefaults` | src/main.rs:46-56 | a recording-settings object with no `channel` member decodes with channel `Some("0")` and every other field as sent |
| `Wire.CameraRoundTrip` | src/main.rs:22-32 | a camera record survives encoding and decoding, with the id under `_id` |
| `Wire.CamerasRoundTrip` | src/main.rs:11-12 | a list of camera records survives encoding and decoding, element for element and in order |
| `Wire.ResponseRoundTrip` | src/main.rs:10-14 | a whole `CameraResponse` (`data` and `meta`) survives encoding and decoding |
| `Wire.UnknownMemberDropped` | src/main.rs:22-32 | a member the struct does not declare is ignored on decoding, so re-encoding the decoded record does not reproduce it |
| `Configuration.Read` | src/main.rs:65-71 | reading a variable succeeds exactly when it is set to text; otherwise it reports it missing, or not convertible to text |
| `Configuration.New` | src/main.rs:64-82 | succeeds exactly when both variables hold text, with those values; a bad key is reported even when the host is bad too; each error names a variable that really is missing or not text |
| `Configuration.MessagesDistinct` | src/main.rs:68-76 | the four configuration failures have four different messages (with the missing-host message corrected) |
| `Configuration.NewAsWritten` | src/main.rs:73-79 | the code as written succeeds on the same environments as `New`, with the same configuration |
| `Configuration.AsWrittenAgrees` | src/main.rs:64-82 | apart from a missing host, the code as written fails with the message of `New`'s error |
| `Configuration.HostMissingMisreported` | src/main.rs:78 | with `UNIFI_API_KEY=abc` and no host, the code as written gives the message for a missing API key |
| `Configuration.HostMissingAlwaysMisreported` | src/main.rs:73-79 | for every environment with a usable key and no host, the code as written gives the missing-API-key message, while `New` reports the missing host |
| `Urls.CameraIdRoundTrip` | src/main.rs:91-96 | the camera id can be read back from the per-camera URL built for it |
| `Urls.CameraUrlInjective` | src/main.rs:116-121 | two per-camera URL strings for the same configuration are equal only for the same camera id (as strings; how a sent URL is parsed is not modelled) |
| `Urls.ListUrlIsNotCameraUrl` | src/main.rs:140-143 | the list URL never equals a per-camera URL |
| `Urls.UrlsCarryHostAndKey` | src/main.rs:140-143 | both URLs start with `http://` and the host, and end with `?apiKey=` and the key |
| `Listing.Managed` | src/main.rs:151-155 | the filter keeps only managed records, and its output is a subsequence of the input in the same order |
| `Listing.ManagedMembership` | src/main.rs:151-155 | a record is in the output exactly when it is in the input and managed |
| `Listing.ManagedMultiplicity` | src/main.rs:151-155 | each managed record occurs in the output exactly as often as in the input; unmanaged records never occur |
| `Listing.ManagedSubsequenceBound` | src/main.rs:151-155 | no subsequence of managed records is longer than the filter's output |
| `Listing.ManagedIsUnique` | src/main.rs:151-155 | every subsequence of managed records that is as long as the filter's output equals it |
| `Toggle.WithRecording` | src/main.rs:110-111 | the new record has both recording flags equal to `status` and every other field unchanged |
| `Toggle.WithRecordingIsUnique` | src/main.rs:110-111 | any record that keeps the other fields and has both flags at `status` is the new record |
| `Toggle.Decide` | src/main.rs:104-111 | no write exactly when the full-time flag already equals `status`; otherwise one write with both flags at `status` and nothing else changed |
| `Toggle.SingleCamera` | src/main.rs:101-102 | the fetched response is accepted only when `data` holds exactly one record, which is taken; otherwise the error carries the actual count |
| `Toggle.UpdateRecordSetting` | src/main.rs:99-111 | fails unless `data` has exactly one element; then no write exactly when its full-time flag already equals `status` (the motion flag is not compared), and otherwise one write of the record with both flags at `status` and nothing else changed |
| `Toggle.DecideIdempotent` | src/main.rs:105-111 | feeding the written record back in with the same `status` produces no write |
| `Toggle.UpdateIdempotent` | src/main.rs:101-111 | a response that echoes the written record succeeds with no write |
| `Toggle.MotionFlagNotReconciled` | src/main.rs:105-107 | a record whose full-time flag matches `status` but whose motion flag does not gets no write, and keeps the mismatched motion flag |
| `Program.Fetch` | src/main.rs:91-100 | a GET reply yields a response only when a body arrived and decodes; it yields the decoded response |
| `Program.GetCameraList` | src/main.rs:139-157 | the result holds only managed records, is a subsequence of the decoded response's `data` in the same order, and is as long as the filter's output, so by `Listing.ManagedIsUnique` it is exactly the managed records |
| `Program.SetRecording` | src/main.rs:85-129 | one GET of the camera URL, then a PUT to the same URL exactly when one record was fetched and its full-time flag differs from `status`; the PUT body is the new record; the outcome fails only when a PUT could not be sent or the fetch failed |
| `Program.TurnRecordingOn` | src/main.rs:131-133 | the camera URL is fetched first; a second request, if any, is a PUT to the same URL whose body decodes to a record with both recording flags on |
| `Program.TurnRecordingOff` | src/main.rs:135-137 | the camera URL is fetched first; a second request, if any, is a PUT to the same URL whose body decodes to a record with both recording flags off |
| `Program.EntryPoint` | src/main.rs:159-170 | no request at all when the configuration fails; otherwise the list GET first; a run with no managed cameras ends in `NoCameras` after that GET; otherwise recording is turned off on the first managed camera |
| `Program.PutBodyIsFetchedRecord` | src/main.rs:114-123 | the PUT body, read back, is the complete fetched record with only the two recording flags changed, both to `status` |
| `Program.SetRecordingIdempotent` | src/main.rs:104-111 | if the next GET returns the record just written, the same call issues only the GET and succeeds |
| `Program.EntryPointWritesOnlyRecordingOff` | src/main.rs:163-169 | a run writes at most once, as its third request, to the first managed camera's URL, with recording off |
| `Program.TurnsFirstManagedCameraOff` | src/main.rs:159-170 | with a managed camera listed before an unmanaged one and recording on, the run is the list GET, a GET of that camera, and one PUT turning recording off |

## Left out

- HTTP: `reqwest::get`, `Client::put` and `read_to_string` are replaced by input values. These are a `Reply` per GET and a boolean for whether the PUT was sent. Timeouts and blocking are not modelled.
- The list GET and the camera GET get their replies independently. The model does not relate what the appliance returns for one request to what it returns for the other.
- JSON arrays as structs: serde also accepts each struct written as a JSON array of its fields in declaration order. The model decodes only the object form and refuses the array form. For example, the body `[[], [0, 0]]` is a valid empty camera list for the program, but a decoding failure here.
- JSON text: parsing text into a JSON value and printing one back are not modelled. A body is an abstract value tree. Syntax errors, non-integer numbers and member order on the wire are outside the model.
- Environment access: reading the process environment and the platform's `OsString` are not modelled. The environment is a map. A value that cannot be turned into text is the `NotUnicode` marker.
- Messages: the text of each panic is not modelled. A panic is a `Fault` value. Only the configuration messages are modelled, because they carry the finding below.
- The PUT response is ignored, as in the program. Its HTTP status is never inspected, so there is nothing to state about it.
- `CameraResponseMeta` counts are decoded, but nothing checks them against `data`, as in the program.
- `Wire.UnknownMemberDropped`: the appliance's camera records carry more members than the struct declares. The program sends back only the declared ones. The model states this for one extra member; it does not model what the appliance does with the shorter body.

## Findings

| source | as written | input that shows it | evidently intended | confidence | as-written member | corrected member |
|---|---|---|---|---|---|---|
| src/main.rs:78 | when `UNIFI_VIDEO_HOST` is unset, `Config::new` returns "Could not get api key; try setting UNIFI_API_KEY env variable", the same text as for a missing key (line 70) | environment `UNIFI_API_KEY=abc`, `UNIFI_VIDEO_HOST` unset | a message that names the missing `UNIFI_VIDEO_HOST` | high; not executed | `Configuration.HostMissingMisreported` | `Configuration.MessagesDistinct` |

The rest of the model uses the corrected `Configuration.New`, whose missing-host
error is `MissingVariable(Host)`. `Configuration.NewAsWritten` keeps the code as
written. `Configuration.AsWrittenAgrees` shows that they agree on every
environment except a missing host. `Configuration.HostMissingAlwaysMisreported`
shows that on every such environment they differ, and only in that message.
