/**
 * The JSON shape of the camera records, as the serde derives of
 * src/main.rs:10-56 fix it. JSON text itself is not modelled: a body is an
 * abstract JSON value. Decoding follows serde's derived behaviour for structs
 * sent as JSON objects: members are looked up by their wire name, unknown
 * members are ignored, a repeated member is an error, a missing required
 * member is an error, an absent `channel` takes `default_channel`, a null
 * `channel` is `None`, and a number outside the `u32` range is an error.
 * serde also accepts a struct written as a JSON array of its fields in
 * declaration order; that form is not modelled and is refused here.
 */
module Wire {
  import opened Wrappers
  import opened Camera

  datatype Json =
    | JNull
    | JBool(b: bool)
    | JNum(n: int)
    | JStr(s: string)
    | JArr(items: seq<Json>)
    | JObj(members: seq<Member>)

  datatype Member = Member(key: string, value: Json)

  datatype DecodeError =
    | MissingField(key: string)
    | DuplicateField(key: string)
    | WrongType(key: string)
    | OutOfRange(key: string)

  // Wire names: camelCase everywhere, except the identifier (`_id`) and the
  // two members of the un-renamed `CameraResponse`.
  // Where a value that is not a member sits: the whole body, or one element
  // of the `data` array.
  const BodyContext := "(body)"
  const CameraContext := "data[]"

  const DataKey := "data"
  const MetaKey := "meta"
  const TotalCountKey := "totalCount"
  const FilteredCountKey := "filteredCount"
  const IdKey := "_id"
  const NameKey := "name"
  const ManagedKey := "managed"
  const UuidKey := "uuid"
  const AnalyticsKey := "analyticsSettings"
  const RecordingKey := "recordingSettings"
  const SoundAlertKey := "enableSoundAlert"
  const VolumeKey := "soundAlertVolume"
  const MinimumMotionKey := "minimumMotionSecs"
  const EndMotionKey := "endMotionAfterSecs"
  const ChannelKey := "channel"
  const PrePaddingKey := "prePaddingSecs"
  const PostPaddingKey := "postPaddingSecs"
  const FullTimeKey := "fullTimeRecordEnabled"
  const MotionKey := "motionRecordEnabled"

  /** True when no two members share a key. */
  predicate DistinctKeys(ms: seq<Member>) {
    forall i, j :: 0 <= i < j < |ms| ==> ms[i].key != ms[j].key
  }

  /** The values of every member named `key`, in order of appearance. */
  function ValuesOf(ms: seq<Member>, key: string): (vs: seq<Json>)
    ensures |vs| <= |ms|
  {
    if |ms| == 0 then []
    else (if ms[0].key == key then [ms[0].value] else []) + ValuesOf(ms[1..], key)
  }

  /** A key no member carries has no values. */
  lemma {:induction false} ValuesOfAbsent(ms: seq<Member>, key: string)
    requires forall m :: m in ms ==> m.key != key
    ensures ValuesOf(ms, key) == []
  {
    if |ms| > 0 {
      assert ms[0] in ms;
      assert forall m :: m in ms[1..] ==> m in ms;
      ValuesOfAbsent(ms[1..], key);
    }
  }

  /** Looking up a key that occurs exactly once in an object finds exactly its value. */
  lemma {:induction false} ValuesOfDistinct(ms: seq<Member>, i: nat)
    requires DistinctKeys(ms)
    requires i < |ms|
    ensures ValuesOf(ms, ms[i].key) == [ms[i].value]
  {
    if i == 0 {
      assert forall m :: m in ms[1..] ==> m.key != ms[0].key by {
        forall m | m in ms[1..] ensures m.key != ms[0].key {
          var j :| 0 <= j < |ms[1..]| && ms[1..][j] == m;
          assert ms[j + 1] == m;
        }
      }
      ValuesOfAbsent(ms[1..], ms[0].key);
    } else {
      assert ms[1..][i - 1] == ms[i];
      ValuesOfDistinct(ms[1..], i - 1);
    }
  }

  /** A member that may be absent: none, one, or the error serde reports for a repeat. */
  function Field(ms: seq<Member>, key: string): (r: Result<Option<Json>, DecodeError>)
    ensures r == Success(None) <==> ValuesOf(ms, key) == []
    ensures r.Success? && r.value.Some? <==> |ValuesOf(ms, key)| == 1
    ensures r.Success? && r.value.Some? ==> r.value.value == ValuesOf(ms, key)[0]
    ensures r.Failure? ==> r.error == DuplicateField(key)
  {
    var vs := ValuesOf(ms, key);
    if |vs| == 0 then Success(None)
    else if |vs| == 1 then Success(Some(vs[0]))
    else Failure(DuplicateField(key))
  }

  /** A member that must be present. */
  function Required(ms: seq<Member>, key: string): (r: Result<Json, DecodeError>)
    ensures r.Success? <==> |ValuesOf(ms, key)| == 1
    ensures r.Success? ==> r.value == ValuesOf(ms, key)[0]
  {
    var f :- Field(ms, key);
    if f.None? then Failure(MissingField(key)) else Success(f.value)
  }

  function AsBool(key: string, j: Json): Result<bool, DecodeError> {
    if j.JBool? then Success(j.b) else Failure(WrongType(key))
  }

  function AsString(key: string, j: Json): Result<string, DecodeError> {
    if j.JStr? then Success(j.s) else Failure(WrongType(key))
  }

  /** serde refuses a `u32` member that is not a number in `[0, 2^32)`. */
  function AsU32(key: string, j: Json): (r: Result<U32, DecodeError>)
    ensures r.Success? <==> j.JNum? && 0 <= j.n < U32Limit
    ensures r.Success? ==> r.value == j.n
  {
    if !j.JNum? then Failure(WrongType(key))
    else if 0 <= j.n < U32Limit then Success(j.n)
    else Failure(OutOfRange(key))
  }

  function AsObject(key: string, j: Json): Result<seq<Member>, DecodeError> {
    if j.JObj? then Success(j.members) else Failure(WrongType(key))
  }

  function AsArray(key: string, j: Json): Result<seq<Json>, DecodeError> {
    if j.JArr? then Success(j.items) else Failure(WrongType(key))
  }

  function RequiredBool(ms: seq<Member>, key: string): Result<bool, DecodeError> {
    var j :- Required(ms, key);
    AsBool(key, j)
  }

  function RequiredString(ms: seq<Member>, key: string): Result<string, DecodeError> {
    var j :- Required(ms, key);
    AsString(key, j)
  }

  function RequiredU32(ms: seq<Member>, key: string): Result<U32, DecodeError> {
    var j :- Required(ms, key);
    AsU32(key, j)
  }

  function RequiredObject(ms: seq<Member>, key: string): Result<seq<Member>, DecodeError> {
    var j :- Required(ms, key);
    AsObject(key, j)
  }

  // ---------------------------------------------------------------- encoding

  function EncodeChannel(c: Option<string>): Json {
    match c
    case None => JNull
    case Some(s) => JStr(s)
  }

  function EncodeMeta(m: Meta): Json {
    JObj([Member(TotalCountKey, JNum(m.totalCount)),
          Member(FilteredCountKey, JNum(m.filteredCount))])
  }

  function EncodeAnalytics(a: AnalyticsSettings): Json {
    JObj([Member(SoundAlertKey, JBool(a.enableSoundAlert)),
          Member(VolumeKey, JNum(a.soundAlertVolume)),
          Member(MinimumMotionKey, JNum(a.minimumMotionSecs)),
          Member(EndMotionKey, JNum(a.endMotionAfterSecs))])
  }

  function EncodeRecording(r: RecordingSettings): Json {
    JObj([Member(ChannelKey, EncodeChannel(r.channel)),
          Member(PrePaddingKey, JNum(r.prePaddingSecs)),
          Member(PostPaddingKey, JNum(r.postPaddingSecs)),
          Member(FullTimeKey, JBool(r.fullTimeRecordEnabled)),
          Member(MotionKey, JBool(r.motionRecordEnabled))])
  }

  function EncodeCamera(c: CameraData): Json {
    JObj([Member(IdKey, JStr(c.id)),
          Member(NameKey, JStr(c.name)),
          Member(ManagedKey, JBool(c.managed)),
          Member(UuidKey, JStr(c.uuid)),
          Member(AnalyticsKey, EncodeAnalytics(c.analyticsSettings)),
          Member(RecordingKey, EncodeRecording(c.recordingSettings))])
  }

  function EncodeCameras(cs: seq<CameraData>): (js: seq<Json>)
    ensures |js| == |cs|
  {
    if |cs| == 0 then [] else [EncodeCamera(cs[0])] + EncodeCameras(cs[1..])
  }

  function EncodeResponse(r: CameraResponse): Json {
    JObj([Member(DataKey, JArr(EncodeCameras(r.data))),
          Member(MetaKey, EncodeMeta(r.meta))])
  }

  // ---------------------------------------------------------------- decoding

  /**
   * The channel: an absent member takes the default channel "0", a null
   * member is no channel, and a string is that channel.
   */
  function DecodeChannel(ms: seq<Member>): Result<Option<string>, DecodeError> {
    var f :- Field(ms, ChannelKey);
    match f
    case None => Success(DefaultChannel())
    case Some(JNull) => Success(None)
    case Some(JStr(s)) => Success(Some(s))
    case Some(_) => Failure(WrongType(ChannelKey))
  }

  function DecodeMeta(j: Json): Result<Meta, DecodeError> {
    var ms :- AsObject(MetaKey, j);
    var total :- RequiredU32(ms, TotalCountKey);
    var filtered :- RequiredU32(ms, FilteredCountKey);
    Success(Meta(total, filtered))
  }

  function DecodeAnalytics(j: Json): Result<AnalyticsSettings, DecodeError> {
    var ms :- AsObject(AnalyticsKey, j);
    var alert :- RequiredBool(ms, SoundAlertKey);
    var volume :- RequiredU32(ms, VolumeKey);
    var minimum :- RequiredU32(ms, MinimumMotionKey);
    var end :- RequiredU32(ms, EndMotionKey);
    Success(AnalyticsSettings(alert, volume, minimum, end))
  }

  function DecodeRecording(j: Json): Result<RecordingSettings, DecodeError> {
    var ms :- AsObject(RecordingKey, j);
    var channel :- DecodeChannel(ms);
    var pre :- RequiredU32(ms, PrePaddingKey);
    var post :- RequiredU32(ms, PostPaddingKey);
    var fullTime :- RequiredBool(ms, FullTimeKey);
    var motion :- RequiredBool(ms, MotionKey);
    Success(RecordingSettings(channel, pre, post, fullTime, motion))
  }

  function DecodeCamera(j: Json): Result<CameraData, DecodeError> {
    var ms :- AsObject(CameraContext, j);
    var id :- RequiredString(ms, IdKey);
    var name :- RequiredString(ms, NameKey);
    var managed :- RequiredBool(ms, ManagedKey);
    var uuid :- RequiredString(ms, UuidKey);
    var analyticsJson :- Required(ms, AnalyticsKey);
    var analytics :- DecodeAnalytics(analyticsJson);
    var recordingJson :- Required(ms, RecordingKey);
    var recording :- DecodeRecording(recordingJson);
    Success(CameraData(id, name, managed, uuid, analytics, recording))
  }

  /** Decodes a JSON array element by element; the first bad element fails the whole array. */
  function DecodeCameras(js: seq<Json>): (r: Result<seq<CameraData>, DecodeError>)
    ensures r.Success? ==> |r.value| == |js|
  {
    if |js| == 0 then Success([])
    else
      var c :- DecodeCamera(js[0]);
      var rest :- DecodeCameras(js[1..]);
      Success([c] + rest)
  }

  function DecodeResponse(j: Json): Result<CameraResponse, DecodeError> {
    var ms :- AsObject(BodyContext, j);
    var dataJson :- Required(ms, DataKey);
    var items :- AsArray(DataKey, dataJson);
    var data :- DecodeCameras(items);
    var metaJson :- Required(ms, MetaKey);
    var meta :- DecodeMeta(metaJson);
    Success(CameraResponse(data, meta))
  }

  // ---------------------------------------------------------------- round trips

  lemma MetaRoundTrip(m: Meta)
    ensures DecodeMeta(EncodeMeta(m)) == Success(m)
  {
    var ms := EncodeMeta(m).members;
    assert DistinctKeys(ms);
    ValuesOfDistinct(ms, 0);
    ValuesOfDistinct(ms, 1);
    RequiredU32Found(ms, TotalCountKey, m.totalCount);
    RequiredU32Found(ms, FilteredCountKey, m.filteredCount);
  }

  lemma AnalyticsRoundTrip(a: AnalyticsSettings)
    ensures DecodeAnalytics(EncodeAnalytics(a)) == Success(a)
  {
    var ms := EncodeAnalytics(a).members;
    assert DistinctKeys(ms);
    ValuesOfDistinct(ms, 0);
    ValuesOfDistinct(ms, 1);
    ValuesOfDistinct(ms, 2);
    ValuesOfDistinct(ms, 3);
    RequiredBoolFound(ms, SoundAlertKey, a.enableSoundAlert);
    RequiredU32Found(ms, VolumeKey, a.soundAlertVolume);
    RequiredU32Found(ms, MinimumMotionKey, a.minimumMotionSecs);
    RequiredU32Found(ms, EndMotionKey, a.endMotionAfterSecs);
  }

  lemma RequiredU32Found(ms: seq<Member>, key: string, v: U32)
    requires ValuesOf(ms, key) == [JNum(v)]
    ensures RequiredU32(ms, key) == Success(v)
  {
  }

  lemma RequiredBoolFound(ms: seq<Member>, key: string, b: bool)
    requires ValuesOf(ms, key) == [JBool(b)]
    ensures RequiredBool(ms, key) == Success(b)
  {
  }

  lemma ChannelFound(ms: seq<Member>, c: Option<string>)
    requires ValuesOf(ms, ChannelKey) == [EncodeChannel(c)]
    ensures DecodeChannel(ms) == Success(c)
  {
  }

  /** Every member of an encoded recording-settings object except `channel` reads back. */
  lemma RecordingTailDecodes(r: RecordingSettings, ms: seq<Member>)
    requires ValuesOf(ms, PrePaddingKey) == [JNum(r.prePaddingSecs)]
    requires ValuesOf(ms, PostPaddingKey) == [JNum(r.postPaddingSecs)]
    requires ValuesOf(ms, FullTimeKey) == [JBool(r.fullTimeRecordEnabled)]
    requires ValuesOf(ms, MotionKey) == [JBool(r.motionRecordEnabled)]
    ensures DecodeRecording(JObj(ms)).Success? <==> DecodeChannel(ms).Success?
    ensures DecodeChannel(ms).Success? ==>
              DecodeRecording(JObj(ms)) == Success(r.(channel := DecodeChannel(ms).value))
  {
    RequiredU32Found(ms, PrePaddingKey, r.prePaddingSecs);
    RequiredU32Found(ms, PostPaddingKey, r.postPaddingSecs);
    RequiredBoolFound(ms, FullTimeKey, r.fullTimeRecordEnabled);
    RequiredBoolFound(ms, MotionKey, r.motionRecordEnabled);
  }

  lemma RecordingRoundTrip(r: RecordingSettings)
    ensures DecodeRecording(EncodeRecording(r)) == Success(r)
  {
    var ms := EncodeRecording(r).members;
    assert DistinctKeys(ms);
    ValuesOfDistinct(ms, 0);
    ValuesOfDistinct(ms, 1);
    ValuesOfDistinct(ms, 2);
    ValuesOfDistinct(ms, 3);
    ValuesOfDistinct(ms, 4);
    ChannelFound(ms, r.channel);
    RecordingTailDecodes(r, ms);
  }

  /** A recording-settings object without a `channel` member decodes with channel "0". */
  lemma AbsentChannelDefaults(r: RecordingSettings)
    ensures DecodeRecording(JObj(EncodeRecording(r).members[1..])) == Success(r.(channel := Some("0")))
  {
    var ms := [Member(PrePaddingKey, JNum(r.prePaddingSecs)),
               Member(PostPaddingKey, JNum(r.postPaddingSecs)),
               Member(FullTimeKey, JBool(r.fullTimeRecordEnabled)),
               Member(MotionKey, JBool(r.motionRecordEnabled))];
    assert EncodeRecording(r).members[1..] == ms;
    assert DistinctKeys(ms);
    ValuesOfAbsent(ms, ChannelKey);
    ValuesOfDistinct(ms, 0);
    ValuesOfDistinct(ms, 1);
    ValuesOfDistinct(ms, 2);
    ValuesOfDistinct(ms, 3);
    assert DecodeChannel(ms) == Success(Some("0"));
    RecordingTailDecodes(r, ms);
  }

  /** Serialising a camera record and reading it back gives the same record. */
  lemma CameraRoundTrip(c: CameraData)
    ensures DecodeCamera(EncodeCamera(c)) == Success(c)
  {
    var ms := EncodeCamera(c).members;
    assert DistinctKeys(ms);
    ValuesOfDistinct(ms, 0);
    ValuesOfDistinct(ms, 1);
    ValuesOfDistinct(ms, 2);
    ValuesOfDistinct(ms, 3);
    ValuesOfDistinct(ms, 4);
    ValuesOfDistinct(ms, 5);
    AnalyticsRoundTrip(c.analyticsSettings);
    RecordingRoundTrip(c.recordingSettings);
  }

  lemma DecodeCamerasCons(j: Json, js: seq<Json>, c: CameraData, cs: seq<CameraData>)
    requires DecodeCamera(j) == Success(c)
    requires DecodeCameras(js) == Success(cs)
    ensures DecodeCameras([j] + js) == Success([c] + cs)
  {
    assert ([j] + js)[0] == j;
    assert ([j] + js)[1..] == js;
  }

  lemma {:induction false} CamerasRoundTrip(cs: seq<CameraData>)
    ensures DecodeCameras(EncodeCameras(cs)) == Success(cs)
  {
    if |cs| > 0 {
      CameraRoundTrip(cs[0]);
      CamerasRoundTrip(cs[1..]);
      DecodeCamerasCons(EncodeCamera(cs[0]), EncodeCameras(cs[1..]), cs[0], cs[1..]);
      assert [cs[0]] + cs[1..] == cs;
    }
  }

  /** Serialising a whole camera response and reading it back gives the same response. */
  lemma ResponseRoundTrip(r: CameraResponse)
    ensures DecodeResponse(EncodeResponse(r)) == Success(r)
  {
    var ms := EncodeResponse(r).members;
    assert DistinctKeys(ms);
    ValuesOfDistinct(ms, 0);
    ValuesOfDistinct(ms, 1);
    CamerasRoundTrip(r.data);
    MetaRoundTrip(r.meta);
  }

  lemma {:induction false} ValuesOfAppend(a: seq<Member>, b: seq<Member>, key: string)
    ensures ValuesOf(a + b, key) == ValuesOf(a, key) + ValuesOf(b, key)
  {
    if |a| > 0 {
      assert (a + b)[1..] == a[1..] + b;
      assert (a + b)[0] == a[0];
      ValuesOfAppend(a[1..], b, key);
    } else {
      assert a + b == b;
    }
  }

  /** The wire names of the members of a camera object. */
  function CameraKeys(): set<string> {
    {IdKey, NameKey, ManagedKey, UuidKey, AnalyticsKey, RecordingKey}
  }

  /**
   * A camera object may carry members the record does not declare: they are
   * ignored on decoding, so the record read back (and hence the body a PUT
   * sends) no longer contains them.
   */
  lemma UnknownMemberDropped(c: CameraData, extra: Member)
    requires extra.key !in CameraKeys()
    ensures DecodeCamera(JObj(EncodeCamera(c).members + [extra])) == Success(c)
    ensures EncodeCamera(c) != JObj(EncodeCamera(c).members + [extra])
  {
    var ms := EncodeCamera(c).members;
    var ms' := ms + [extra];
    assert DistinctKeys(ms);
    forall i | 0 <= i < |ms|
      ensures ValuesOf(ms', ms[i].key) == [ms[i].value]
    {
      ValuesOfDistinct(ms, i);
      ValuesOfAppend(ms, [extra], ms[i].key);
    }
    assert ValuesOf(ms', IdKey) == [ms[0].value];
    assert ValuesOf(ms', NameKey) == [ms[1].value];
    assert ValuesOf(ms', ManagedKey) == [ms[2].value];
    assert ValuesOf(ms', UuidKey) == [ms[3].value];
    assert ValuesOf(ms', AnalyticsKey) == [ms[4].value];
    assert ValuesOf(ms', RecordingKey) == [ms[5].value];
    AnalyticsRoundTrip(c.analyticsSettings);
    RecordingRoundTrip(c.recordingSettings);
    assert |EncodeCamera(c).members| != |ms'|;
  }
}
