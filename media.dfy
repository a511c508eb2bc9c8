/**
 * The data the editing features exchange: assets, the untyped parameter
 * dictionary, errors, and what the media framework reports about a file.
 */
module Media {
  import opened Wrappers
  import opened Geometry

  /** EditingAssetType */
  datatype AssetType = Video | Audio | Image

  /** EditingAsset: a file location and the kind of media stored there. */
  datatype Asset = Asset(url: string, kind: AssetType)

  /** An NSError as the features build one: a domain and a code. */
  datatype Error = Error(domain: string, code: int)

  /** Swift's Result<EditingAsset, Error>. */
  datatype Result<+T> = Success(value: T) | Failure(error: Error)

  /** A value stored under a key of the `[String: Any]` parameter dictionary. */
  datatype Value =
    | DoubleValue(d: real)
    | FloatValue(f: real)
    | CGFloatValue(g: real)
    | BoolValue(b: bool)
    | StringValue(s: string)
    | AssetValue(asset: Asset)
    | AssetListValue(assets: seq<Asset>)
    | MetadataValue(items: seq<string>)

  /** The dynamic type of a parameter value, as a cast `as? T` tests it. */
  datatype ValueType = TDouble | TFloat | TCGFloat | TBool | TString | TAsset | TAssetList | TMetadata

  function TypeOf(v: Value): ValueType {
    match v
    case DoubleValue(_) => TDouble
    case FloatValue(_) => TFloat
    case CGFloatValue(_) => TCGFloat
    case BoolValue(_) => TBool
    case StringValue(_) => TString
    case AssetValue(_) => TAsset
    case AssetListValue(_) => TAssetList
    case MetadataValue(_) => TMetadata
  }

  type Params = map<string, Value>

  // The casts `params[key] as? T`: a value only when the key is present and
  // holds a value of exactly that type.

  function AsDouble(params: Params, key: string): Option<real> {
    if key in params && params[key].DoubleValue? then Some(params[key].d) else None
  }

  function AsFloat(params: Params, key: string): Option<real> {
    if key in params && params[key].FloatValue? then Some(params[key].f) else None
  }

  function AsCGFloat(params: Params, key: string): Option<real> {
    if key in params && params[key].CGFloatValue? then Some(params[key].g) else None
  }

  function AsBool(params: Params, key: string): Option<bool> {
    if key in params && params[key].BoolValue? then Some(params[key].b) else None
  }

  function AsString(params: Params, key: string): Option<string> {
    if key in params && params[key].StringValue? then Some(params[key].s) else None
  }

  function AsAsset(params: Params, key: string): Option<Asset> {
    if key in params && params[key].AssetValue? then Some(params[key].asset) else None
  }

  function AsAssetList(params: Params, key: string): Option<seq<Asset>> {
    if key in params && params[key].AssetListValue? then Some(params[key].assets) else None
  }

  function AsMetadata(params: Params, key: string): Option<seq<string>> {
    if key in params && params[key].MetadataValue? then Some(params[key].items) else None
  }

  /** A required parameter: its key and the type its cast expects. */
  datatype Requirement = Requirement(key: string, valueType: ValueType)

  /** The key is present and holds a value of the required type. */
  predicate Meets(params: Params, req: Requirement) {
    req.key in params && TypeOf(params[req.key]) == req.valueType
  }

  /** Every requirement is met. */
  predicate Conforms(params: Params, schema: seq<Requirement>) {
    forall i :: 0 <= i < |schema| ==> Meets(params, schema[i])
  }

  /** Each cast succeeds exactly when its key meets the requirement of that type. */
  lemma CastSucceedsIffMeets(params: Params, key: string)
    ensures AsDouble(params, key).Some? <==> Meets(params, Requirement(key, TDouble))
    ensures AsFloat(params, key).Some? <==> Meets(params, Requirement(key, TFloat))
    ensures AsCGFloat(params, key).Some? <==> Meets(params, Requirement(key, TCGFloat))
    ensures AsBool(params, key).Some? <==> Meets(params, Requirement(key, TBool))
    ensures AsString(params, key).Some? <==> Meets(params, Requirement(key, TString))
    ensures AsAsset(params, key).Some? <==> Meets(params, Requirement(key, TAsset))
    ensures AsAssetList(params, key).Some? <==> Meets(params, Requirement(key, TAssetList))
    ensures AsMetadata(params, key).Some? <==> Meets(params, Requirement(key, TMetadata))
  {
  }

  lemma ConformsOne(params: Params, r1: Requirement)
    ensures Conforms(params, [r1]) <==> Meets(params, r1)
  {
    var s := [r1];
    assert s[0] == r1;
  }

  lemma ConformsTwo(params: Params, r1: Requirement, r2: Requirement)
    ensures Conforms(params, [r1, r2]) <==> Meets(params, r1) && Meets(params, r2)
  {
    var s := [r1, r2];
    if Conforms(params, s) {
      assert s[0] == r1 && s[1] == r2;
    }
  }

  lemma ConformsFour(params: Params, r1: Requirement, r2: Requirement, r3: Requirement, r4: Requirement)
    ensures Conforms(params, [r1, r2, r3, r4])
        <==> Meets(params, r1) && Meets(params, r2) && Meets(params, r3) && Meets(params, r4)
  {
    var s := [r1, r2, r3, r4];
    if Conforms(params, s) {
      assert s[0] == r1 && s[1] == r2 && s[2] == r3 && s[3] == r4;
    }
  }

  /** A media duration: never negative. */
  type Duration = r: real | 0.0 <= r

  /** The natural size of a video track: both sides positive. */
  type NaturalSize = s: Size | s.width > 0.0 && s.height > 0.0 witness Size(1.0, 1.0)

  /** The first video track of a file: its natural size and nominal frame rate. */
  datatype VideoTrackInfo = VideoTrackInfo(naturalSize: NaturalSize, nominalFrameRate: real)

  /**
   * What AVAsset(url:) reports about a file: its duration, its first video
   * track if it has one, and whether it has an audio track.
   */
  datatype SourceInfo = SourceInfo(duration: Duration, video: Option<VideoTrackInfo>, hasAudio: bool)
}
