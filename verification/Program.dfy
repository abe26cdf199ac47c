/**
 * The request/response cycle of `update_record_setting`, `get_camera_list`
 * and `main` (src/main.rs:85-170). The network is replaced by its answers:
 * each GET is answered by a `Reply`, and whether the PUT could be sent is a
 * boolean. A run is the sequence of requests the program issues together
 * with how it ends; every panic of the source is a `Failure` here.
 */
module Program {
  import opened Wrappers
  import opened Camera
  import opened Wire
  import opened Configuration
  import opened Urls
  import opened Listing
  import opened Toggle

  datatype Request = Get(url: string) | Put(url: string, body: Json)

  /** The answer to one GET: no response at all, an unreadable body, or a JSON body. */
  datatype Reply = NotSent | Unreadable | Body(json: Json)

  datatype Fault =
    | ConfigFault(configError: ConfigError)
    | RequestFailed
    | ReadFailed
    | Malformed(decodeError: DecodeError)
    | WrongCardinality(cardinality: CardinalityError)
    | WriteFailed
    | NoCameras

  datatype Run = Run(requests: seq<Request>, outcome: Result<(), Fault>)

  /** True when `run` issues at least one PUT. */
  predicate Writes(run: Run) {
    exists i :: 0 <= i < |run.requests| && run.requests[i].Put?
  }

  /** Turns a GET reply into the decoded response, or the fault the source panics with. */
  function Fetch(reply: Reply): (r: Result<CameraResponse, Fault>)
    ensures r.Success? <==> reply.Body? && DecodeResponse(reply.json).Success?
    ensures r.Success? ==> r.value == DecodeResponse(reply.json).value
  {
    match reply
    case NotSent => Failure(RequestFailed)
    case Unreadable => Failure(ReadFailed)
    case Body(j) =>
      match DecodeResponse(j)
      case Success(resp) => Success(resp)
      case Failure(e) => Failure(Malformed(e))
  }

  /** `get_camera_list` after its GET: the managed records of the response, in order. */
  function GetCameraList(reply: Reply): (r: Result<seq<CameraData>, Fault>)
    ensures r.Success? <==> Fetch(reply).Success?
    ensures r.Success? ==> AllManaged(r.value) && IsSubsequence(r.value, Fetch(reply).value.data)
    ensures r.Success? ==> |r.value| == |Managed(Fetch(reply).value.data)|
  {
    var resp :- Fetch(reply);
    Success(Managed(resp.data))
  }

  /**
   * `update_record_setting`: one GET of the camera's URL, then at most one
   * PUT to the same URL carrying the serialised new record.
   */
  function SetRecording(cfg: Config, id: string, status: bool, reply: Reply, putSent: bool): (run: Run)
    ensures 1 <= |run.requests| <= 2
    ensures run.requests[0] == Get(CameraUrl(cfg, id))
    ensures |run.requests| == 2 <==>
              && Fetch(reply).Success?
              && |Fetch(reply).value.data| == 1
              && Fetch(reply).value.data[0].recordingSettings.fullTimeRecordEnabled != status
    ensures |run.requests| == 2 ==>
              && run.requests[1].Put?
              && run.requests[1].url == CameraUrl(cfg, id)
              && run.requests[1].body == EncodeCamera(WithRecording(Fetch(reply).value.data[0], status))
    ensures |run.requests| == 2 ==> (run.outcome.Success? <==> putSent)
    ensures |run.requests| == 1 ==>
              (run.outcome.Success? <==> Fetch(reply).Success? && |Fetch(reply).value.data| == 1)
  {
    var url := CameraUrl(cfg, id);
    match Fetch(reply)
    case Failure(f) => Run([Get(url)], Failure(f))
    case Success(resp) =>
      match UpdateRecordSetting(resp, status)
      case Failure(e) => Run([Get(url)], Failure(WrongCardinality(e)))
      case Success(None) => Run([Get(url)], Success(()))
      case Success(Some(w)) =>
        Run([Get(url), Put(url, EncodeCamera(w))], if putSent then Success(()) else Failure(WriteFailed))
  }

  /**
   * `turn_recording_on`: the camera's URL is fetched first, and a write, if
   * any, goes to the same URL and carries the record with recording on.
   */
  function TurnRecordingOn(cfg: Config, id: string, reply: Reply, putSent: bool): (run: Run)
    ensures 1 <= |run.requests| <= 2
    ensures run.requests[0] == Get(CameraUrl(cfg, id))
    ensures |run.requests| == 2 ==>
              && run.requests[1].Put?
              && run.requests[1].url == CameraUrl(cfg, id)
              && DecodeCamera(run.requests[1].body).Success?
              && RecordingIs(DecodeCamera(run.requests[1].body).value, true)
  {
    PutBodyIsFetchedRecord(cfg, id, true, reply, putSent);
    SetRecording(cfg, id, true, reply, putSent)
  }

  /**
   * `turn_recording_off`: the camera's URL is fetched first, and a write, if
   * any, goes to the same URL and carries the record with recording off.
   */
  function TurnRecordingOff(cfg: Config, id: string, reply: Reply, putSent: bool): (run: Run)
    ensures 1 <= |run.requests| <= 2
    ensures run.requests[0] == Get(CameraUrl(cfg, id))
    ensures |run.requests| == 2 ==>
              && run.requests[1].Put?
              && run.requests[1].url == CameraUrl(cfg, id)
              && DecodeCamera(run.requests[1].body).Success?
              && RecordingIs(DecodeCamera(run.requests[1].body).value, false)
  {
    PutBodyIsFetchedRecord(cfg, id, false, reply, putSent);
    SetRecording(cfg, id, false, reply, putSent)
  }

  /**
   * `main`: configuration, the list GET, the first managed camera, and
   * `turn_recording_off` on it.
   */
  function EntryPoint(env: Environment, listReply: Reply, getReply: Reply, putSent: bool): (run: Run)
    ensures New(env).Failure? ==> run == Run([], Failure(ConfigFault(New(env).error)))
    ensures New(env).Success? ==> |run.requests| >= 1 && run.requests[0] == Get(ListUrl(New(env).value))
    ensures New(env).Success? && GetCameraList(listReply).Failure? ==>
              run == Run([Get(ListUrl(New(env).value))], Failure(GetCameraList(listReply).error))
    ensures New(env).Success? && GetCameraList(listReply) == Success([]) ==>
              run == Run([Get(ListUrl(New(env).value))], Failure(NoCameras))
    ensures New(env).Success? && GetCameraList(listReply).Success? && |GetCameraList(listReply).value| > 0 ==>
              var cfg := New(env).value;
              var off := SetRecording(cfg, GetCameraList(listReply).value[0].id, false, getReply, putSent);
              run == Run([Get(ListUrl(cfg))] + off.requests, off.outcome)
  {
    match New(env)
    case Failure(e) => Run([], Failure(ConfigFault(e)))
    case Success(cfg) =>
      var listRequest := Get(ListUrl(cfg));
      match GetCameraList(listReply)
      case Failure(f) => Run([listRequest], Failure(f))
      case Success(cameras) =>
        if |cameras| < 1 then Run([listRequest], Failure(NoCameras))
        else
          var off := TurnRecordingOff(cfg, cameras[0].id, getReply, putSent);
          Run([listRequest] + off.requests, off.outcome)
  }

  /**
   * The PUT body is the complete fetched record: read back, it equals the
   * fetched record in every field except the two recording flags, which are
   * both `status`.
   */
  lemma PutBodyIsFetchedRecord(cfg: Config, id: string, status: bool, reply: Reply, putSent: bool)
    ensures var run := SetRecording(cfg, id, status, reply, putSent);
            Writes(run) ==>
            && |run.requests| == 2
            && Fetch(reply).Success? && |Fetch(reply).value.data| == 1
            && DecodeCamera(run.requests[1].body).Success?
            && var sent := DecodeCamera(run.requests[1].body).value;
               SameExceptRecordingFlags(Fetch(reply).value.data[0], sent) && RecordingIs(sent, status)
  {
    var run := SetRecording(cfg, id, status, reply, putSent);
    if Writes(run) {
      var i :| 0 <= i < |run.requests| && run.requests[i].Put?;
      assert |run.requests| == 2;
      CameraRoundTrip(WithRecording(Fetch(reply).value.data[0], status));
    }
  }

  /**
   * Idempotence across the wire: when the appliance answers the next GET with
   * the record that was just written, the same call issues no PUT and succeeds.
   */
  lemma SetRecordingIdempotent(cfg: Config, id: string, status: bool, reply: Reply, putSent: bool,
                               meta: Meta, putSentAgain: bool)
    ensures Writes(SetRecording(cfg, id, status, reply, putSent)) ==>
              var written := WithRecording(Fetch(reply).value.data[0], status);
              var echo := Body(EncodeResponse(CameraResponse([written], meta)));
              SetRecording(cfg, id, status, echo, putSentAgain) == Run([Get(CameraUrl(cfg, id))], Success(()))
  {
    if Writes(SetRecording(cfg, id, status, reply, putSent)) {
      PutBodyIsFetchedRecord(cfg, id, status, reply, putSent);
      var written := WithRecording(Fetch(reply).value.data[0], status);
      ResponseRoundTrip(CameraResponse([written], meta));
    }
  }

  /**
   * A run of the program writes at most once, and only as its third request:
   * after the list GET and the GET of the first managed camera, to that
   * camera's URL, with both recording flags off.
   */
  lemma EntryPointWritesOnlyRecordingOff(env: Environment, listReply: Reply, getReply: Reply, putSent: bool)
    ensures var run := EntryPoint(env, listReply, getReply, putSent);
            Writes(run) ==>
            && New(env).Success?
            && GetCameraList(listReply).Success? && |GetCameraList(listReply).value| > 0
            && |run.requests| == 3
            && run.requests[0].Get? && run.requests[1].Get? && run.requests[2].Put?
            && run.requests[2].url == CameraUrl(New(env).value, GetCameraList(listReply).value[0].id)
            && DecodeCamera(run.requests[2].body).Success?
            && RecordingIs(DecodeCamera(run.requests[2].body).value, false)
  {
    var run := EntryPoint(env, listReply, getReply, putSent);
    if Writes(run) {
      var i :| 0 <= i < |run.requests| && run.requests[i].Put?;
      var cfg := New(env).value;
      var id := GetCameraList(listReply).value[0].id;
      var off := SetRecording(cfg, id, false, getReply, putSent);
      assert run.requests == [Get(ListUrl(cfg))] + off.requests;
      assert off.requests[i - 1].Put?;
      assert Writes(off);
      PutBodyIsFetchedRecord(cfg, id, false, getReply, putSent);
    }
  }

  /** A GET answered with an encoded response yields exactly that response. */
  lemma FetchEcho(resp: CameraResponse)
    ensures Fetch(Body(EncodeResponse(resp))) == Success(resp)
  {
    ResponseRoundTrip(resp);
  }

  /**
   * The end-to-end run with a managed camera "1" listed before an unmanaged
   * one, whose recording is on: the list GET, the GET of camera "1", and one
   * PUT to the same URL turning recording off.
   */
  lemma TurnsFirstManagedCameraOff(key: string, host: string, first: CameraData, second: CameraData,
                                   meta: Meta, putSent: bool)
    requires first.managed && !second.managed
    requires first.recordingSettings.fullTimeRecordEnabled
    ensures var env := map[Name(ApiKey) := Text(key), Name(Host) := Text(host)];
            var cfg := Config(key, host);
            var listReply := Body(EncodeResponse(CameraResponse([first, second], meta)));
            var getReply := Body(EncodeResponse(CameraResponse([first], meta)));
            var url := CameraUrl(cfg, first.id);
            EntryPoint(env, listReply, getReply, putSent)
            == Run([Get(ListUrl(cfg)), Get(url), Put(url, EncodeCamera(WithRecording(first, false)))],
                   if putSent then Success(()) else Failure(WriteFailed))
  {
    var env := map[Name(ApiKey) := Text(key), Name(Host) := Text(host)];
    var cfg := Config(key, host);
    var listReply := Body(EncodeResponse(CameraResponse([first, second], meta)));
    var getReply := Body(EncodeResponse(CameraResponse([first], meta)));
    var url := CameraUrl(cfg, first.id);
    assert New(env) == Success(cfg);
    FetchEcho(CameraResponse([first, second], meta));
    assert Managed([first, second]) == [first] by {
      assert [first, second][1..] == [second];
    }
    assert GetCameraList(listReply) == Success([first]);
    FetchEcho(CameraResponse([first], meta));
    var off := SetRecording(cfg, first.id, false, getReply, putSent);
    assert off == Run([Get(url), Put(url, EncodeCamera(WithRecording(first, false)))],
                      if putSent then Success(()) else Failure(WriteFailed));
  }
}
