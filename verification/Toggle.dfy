/**
 * The decision inside `update_record_setting` (src/main.rs:99-111, 122): from
 * the decoded response of the per-camera GET and the wanted `status`, either
 * no write at all, or the one record the PUT sends back.
 */
module Toggle {
  import opened Wrappers
  import opened Camera

  /** The per-camera GET did not answer with exactly one record. */
  datatype CardinalityError = UnexpectedCardinality(count: nat)

  /** True when `b` equals `a` in every field except the two recording flags. */
  predicate SameExceptRecordingFlags(a: CameraData, b: CameraData) {
    && a.id == b.id
    && a.name == b.name
    && a.managed == b.managed
    && a.uuid == b.uuid
    && a.analyticsSettings == b.analyticsSettings
    && a.recordingSettings.channel == b.recordingSettings.channel
    && a.recordingSettings.prePaddingSecs == b.recordingSettings.prePaddingSecs
    && a.recordingSettings.postPaddingSecs == b.recordingSettings.postPaddingSecs
  }

  /** True when both recording flags of `c` equal `status`. */
  predicate RecordingIs(c: CameraData, status: bool) {
    c.recordingSettings.fullTimeRecordEnabled == status && c.recordingSettings.motionRecordEnabled == status
  }

  /** The record with both recording flags assigned `status` (src/main.rs:110-111). */
  function WithRecording(c: CameraData, status: bool): (w: CameraData)
    ensures RecordingIs(w, status)
    ensures SameExceptRecordingFlags(c, w)
  {
    c.(recordingSettings := c.recordingSettings.(fullTimeRecordEnabled := status, motionRecordEnabled := status))
  }

  /** A record that keeps every other field and has both flags at `status` is exactly `WithRecording`. */
  lemma WithRecordingIsUnique(c: CameraData, w: CameraData, status: bool)
    requires SameExceptRecordingFlags(c, w)
    requires RecordingIs(w, status)
    ensures w == WithRecording(c, status)
  {
  }

  /**
   * The write for a fetched record: none when its full-time flag already
   * equals `status` (the motion flag is not consulted), otherwise the record
   * with both flags at `status`.
   */
  function Decide(c: CameraData, status: bool): (w: Option<CameraData>)
    ensures w.None? <==> c.recordingSettings.fullTimeRecordEnabled == status
    ensures w.Some? ==> RecordingIs(w.value, status) && SameExceptRecordingFlags(c, w.value)
  {
    if c.recordingSettings.fullTimeRecordEnabled == status then None
    else Some(WithRecording(c, status))
  }

  /** The cardinality guard: the response must carry exactly one record, which is the one taken. */
  function SingleCamera(resp: CameraResponse): (r: Result<CameraData, CardinalityError>)
    ensures r.Success? <==> |resp.data| == 1
    ensures r.Success? ==> resp.data == [r.value]
    ensures r.Failure? ==> r.error.count == |resp.data|
  {
    if |resp.data| == 1 then Success(resp.data[0]) else Failure(UnexpectedCardinality(|resp.data|))
  }

  /**
   * The pure part of `update_record_setting`: fails unless the response holds
   * exactly one record; then `None` means no PUT, `Some(w)` means one PUT of `w`.
   */
  function UpdateRecordSetting(resp: CameraResponse, status: bool): (r: Result<Option<CameraData>, CardinalityError>)
    ensures r.Success? <==> |resp.data| == 1
    ensures r.Failure? ==> r.error == UnexpectedCardinality(|resp.data|)
    ensures r.Success? ==> (r.value.None? <==> resp.data[0].recordingSettings.fullTimeRecordEnabled == status)
    ensures r.Success? && r.value.Some? ==>
              RecordingIs(r.value.value, status) && SameExceptRecordingFlags(resp.data[0], r.value.value)
  {
    var c :- SingleCamera(resp);
    Success(Decide(c, status))
  }

  /** Feeding the written record back in with the same `status` writes nothing. */
  lemma DecideIdempotent(c: CameraData, status: bool)
    requires Decide(c, status).Some?
    ensures Decide(Decide(c, status).value, status).None?
  {
  }

  /** The same, for a whole response that echoes the written record. */
  lemma UpdateIdempotent(resp: CameraResponse, status: bool)
    requires UpdateRecordSetting(resp, status).Success?
    requires UpdateRecordSetting(resp, status).value.Some?
    ensures UpdateRecordSetting(resp.(data := [UpdateRecordSetting(resp, status).value.value]), status)
            == Success(None)
  {
  }

  /**
   * A record whose full-time flag already matches but whose motion flag does
   * not is left as it is: the short-circuit looks at one flag only.
   */
  lemma MotionFlagNotReconciled(c: CameraData, status: bool)
    requires c.recordingSettings.fullTimeRecordEnabled == status
    requires c.recordingSettings.motionRecordEnabled != status
    ensures Decide(c, status).None?
    ensures !RecordingIs(c, status)
  {
  }
}
