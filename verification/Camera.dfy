/**
 * The camera records exchanged with the video appliance (src/main.rs:10-56).
 * Every record is an immutable value; the only operation that changes one is
 * the recording toggle in module Toggle.
 */
module Camera {
  import opened Wrappers

  /** The source's `u32`: the decoder refuses numbers outside this range. */
  const U32Limit: int := 0x1_0000_0000
  type U32 = x: int | 0 <= x < U32Limit

  /** `CameraResponseMeta`: the counters that accompany a list of cameras. */
  datatype Meta = Meta(totalCount: U32, filteredCount: U32)

  /** `AnalyticsSettings`: carried through untouched. */
  datatype AnalyticsSettings = AnalyticsSettings(
    enableSoundAlert: bool,
    soundAlertVolume: U32,
    minimumMotionSecs: U32,
    endMotionAfterSecs: U32)

  /** `RecordingSettings`: the two flags are the only fields ever changed. */
  datatype RecordingSettings = RecordingSettings(
    channel: Option<string>,
    prePaddingSecs: U32,
    postPaddingSecs: U32,
    fullTimeRecordEnabled: bool,
    motionRecordEnabled: bool)

  /** `UnifiCameraData`: one camera's full settings snapshot. */
  datatype CameraData = CameraData(
    id: string,
    name: string,
    managed: bool,
    uuid: string,
    analyticsSettings: AnalyticsSettings,
    recordingSettings: RecordingSettings)

  /** `CameraResponse`: the wrapper both GET endpoints answer with. */
  datatype CameraResponse = CameraResponse(data: seq<CameraData>, meta: Meta)

  /** `default_channel`: the channel a record gets when its JSON omits one. */
  function DefaultChannel(): (c: Option<string>)
    ensures c.Some? && c.value == "0"
  {
    Some("0")
  }
}
