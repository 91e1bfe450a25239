/**
 * The dataclasses of website/fingerprint/fingerprint.py: one per component and
 * the `Fingerprint` aggregate of all twenty. A field is either required (no
 * default, even when its type admits `None`) or filled by
 * `field(default_factory=list)` / `field(default_factory=dict)`.
 */
module Dataclasses {
  import opened Wrappers
  import opened JsonData
  import opened Text
  import opened Models

  datatype Default = Required | ListFactory | DictFactory

  datatype DataclassField = DataclassField(name: string, default: Default)

  function Req(name: string): DataclassField { DataclassField(name, Required) }
  function ListOf(name: string): DataclassField { DataclassField(name, ListFactory) }
  function DictOf(name: string): DataclassField { DataclassField(name, DictFactory) }

  /** The component dataclasses, field by field. */
  function ComponentFields(c: Component): seq<DataclassField>
  {
    match c
    case HttpHeaderFingerprint => [
      Req("header_count"), Req("http_version"), Req("tls_protocol"), Req("tls_cipher_suite"),
      ListOf("headers_present"), ListOf("unusual_headers")]
    case Behavioral => [
      Req("typing_speed"), Req("mouse_entropy"), DictOf("keystroke_dynamics"), DictOf("scroll_behavior"),
      ListOf("url_changes"), ListOf("time_of_visit_patterns")]
    case Display => [
      Req("screen_height"), Req("screen_width"), Req("color_depth"), Req("device_pixel_ratio"), Req("color_gamut")]
    case Storage => [
      Req("cookies_enabled"), DictOf("storage_estimate"), ListOf("service_workers"),
      ListOf("indexeddb_dbs"), ListOf("cache_storage_keys")]
    case CSSMediaFeature => [
      Req("prefers_dark_scheme"), Req("font_smoothing"), Req("reduced_motion"), Req("reduced_data"), Req("forced_colors")]
    case PermissionsStatus => [
      Req("geolocation"), Req("notifications"), Req("camera"), Req("microphone"), Req("midi")]
    case Graphics => [
      Req("webgl_renderer"), Req("webgl_vendor"), ListOf("webgl_extensions"), DictOf("webgpu_adapter")]
    case Hardware => [Req("os"), Req("cpu_cores"), Req("device_memory"), Req("device_architecture")]
    case Browser => [Req("vendor"), Req("product_sub"), Req("build_id"), Req("private_mode")]
    case NetworkConnection => [Req("effective_type"), Req("downlink"), Req("rtt")]
    case TimeZone => [Req("time_zone"), Req("timezone_offset"), ListOf("languages")]
    case Media => [ListOf("audio_codecs"), ListOf("video_codecs"), ListOf("media_devices")]
    case TouchPointer => [Req("max_touch_points"), Req("pointer_fine"), Req("standalone")]
    case PerformanceTimings => [DictOf("timings"), DictOf("memory"), DictOf("network_timing")]
    case IP => [Req("ip_address"), DictOf("details")]
    case Canvas => [Req("canvas_hash"), Req("webgl_hash")]
    case Plugins => [ListOf("installed_plugins"), ListOf("mime_types")]
    case EncryptedMediaCapabilities => [ListOf("cdm_list")]
    case Audio => [Req("audio_hash")]
    case Fonts => [ListOf("installed_fonts")]
  }

  /** The `Fingerprint` aggregate: a field per component, in this order, under these names. */
  const AggregateSlots: seq<(string, Component)> := [
    ("ip", IP), ("audio", Audio), ("behavioral", Behavioral), ("browser", Browser),
    ("canvas", Canvas), ("css_features", CSSMediaFeature), ("display", Display), ("fonts", Fonts),
    ("graphics", Graphics), ("hardware", Hardware), ("http_header_fingerprint", HttpHeaderFingerprint),
    ("media", Media), ("network", NetworkConnection), ("performance", PerformanceTimings),
    ("permissions", PermissionsStatus), ("plugins", Plugins),
    ("encrypted_media_capabilities", EncryptedMediaCapabilities), ("storage", Storage),
    ("time_zone", TimeZone), ("touch_pointer", TouchPointer)
  ]

  /** The aggregate's fields: all twenty required. */
  function AggregateFields(): (fs: seq<DataclassField>)
    ensures |fs| == |AggregateSlots|
    ensures forall i :: 0 <= i < |fs| ==> fs[i] == Req(AggregateSlots[i].0)
  {
    seq(|AggregateSlots|, i requires 0 <= i < |AggregateSlots| => Req(AggregateSlots[i].0))
  }

  function DataclassNames(fs: seq<DataclassField>): (names: seq<string>)
    ensures |names| == |fs|
    ensures forall i :: 0 <= i < |fs| ==> names[i] == fs[i].name
  {
    seq(|fs|, i requires 0 <= i < |fs| => fs[i].name)
  }

  /** Python refuses a dataclass whose required field follows a defaulted one; every declaration here obeys that. */
  predicate RequiredFirst(fs: seq<DataclassField>)
  {
    forall i, j :: 0 <= i < j < |fs| && fs[i].default != Required ==> fs[j].default != Required
  }

  function FactoryValue(d: Default): Json
  {
    match d
    case ListFactory => JArray([])
    case DictFactory => JObject([])
    case Required => JNull
  }

  datatype InitError =
      /** `__init__() got an unexpected keyword argument 'name'` */
    | UnexpectedArgument(name: string)
      /** `__init__() missing N required positional arguments: ...` */
    | MissingArguments(names: seq<string>)

  /** The first key of `keys` that is not in `names`. */
  function FirstUnknown(keys: seq<string>, names: seq<string>): (r: Option<string>)
    ensures r.None? <==> forall i :: 0 <= i < |keys| ==> keys[i] in names
    ensures r.Some? ==> r.value in keys && r.value !in names
    ensures r.Some? ==> exists i :: 0 <= i < |keys| && keys[i] == r.value && forall j :: 0 <= j < i ==> keys[j] in names
  {
    if keys == [] then None
    else if keys[0] !in names then Some(keys[0])
    else
      var r := FirstUnknown(keys[1..], names);
      assert forall i :: 1 <= i < |keys| ==> keys[i] == keys[1..][i - 1];
      if r.Some? then
        var i :| 0 <= i < |keys[1..]| && keys[1..][i] == r.value && forall j :: 0 <= j < i ==> keys[1..][j] in names;
        assert keys[i + 1] == r.value;
        r
      else r
  }

  /** The required fields that no keyword supplies, in declaration order. */
  function Missing(fs: seq<DataclassField>, kwargs: seq<(string, Json)>): (names: seq<string>)
    ensures forall n :: n in names <==> exists i :: 0 <= i < |fs| && fs[i].name == n && fs[i].default == Required && Lookup(kwargs, n).None?
  {
    if fs == [] then []
    else
      var rest := Missing(fs[1..], kwargs);
      assert forall i :: 1 <= i < |fs| ==> fs[i] == fs[1..][i - 1];
      if fs[0].default == Required && Lookup(kwargs, fs[0].name).None? then [fs[0].name] + rest else rest
  }

  /**
   * The generated `__init__` called with keyword arguments only: an unknown
   * keyword is refused first, then every missing required field is reported;
   * otherwise each field takes its keyword or, when omitted, a fresh `[]`/`{}`.
   */
  function Init(fs: seq<DataclassField>, kwargs: seq<(string, Json)>): (r: Result<seq<Json>, InitError>)
    ensures (r.Err? && r.error.UnexpectedArgument?) <==> exists i :: 0 <= i < |kwargs| && kwargs[i].0 !in DataclassNames(fs)
    ensures r.Err? && r.error.UnexpectedArgument? ==> r.error.name !in DataclassNames(fs)
    ensures r.Ok? <==> (forall i :: 0 <= i < |kwargs| ==> kwargs[i].0 in DataclassNames(fs))
                       && forall i :: 0 <= i < |fs| && fs[i].default == Required ==> Lookup(kwargs, fs[i].name).Some?
    ensures r.Ok? ==> |r.value| == |fs| && forall i :: 0 <= i < |fs| ==> r.value[i] == GetOr(kwargs, fs[i].name, FactoryValue(fs[i].default))
  {
    var unknown := FirstUnknown(Keys(kwargs), DataclassNames(fs));
    assert forall i :: 0 <= i < |kwargs| ==> kwargs[i].0 in Keys(kwargs);
    if unknown.Some? then Err(UnexpectedArgument(unknown.value))
    else
      var missing := Missing(fs, kwargs);
      if missing != [] then
        assert missing[0] in missing;
        Err(MissingArguments(missing))
      else
        Ok(seq(|fs|, i requires 0 <= i < |fs| => GetOr(kwargs, fs[i].name, FactoryValue(fs[i].default))))
  }

  /** Every dataclass declares its required fields before its defaulted ones. */
  lemma DeclarationsWellOrdered(c: Component)
    ensures RequiredFirst(ComponentFields(c))
  {
    if c in {HttpHeaderFingerprint, Behavioral, Display, Storage, CSSMediaFeature, PermissionsStatus, Graphics} {
      FirstDeclarationsWellOrdered(c);
    } else {
      LaterDeclarationsWellOrdered(c);
    }
  }

  lemma FirstDeclarationsWellOrdered(c: Component)
    requires c in {HttpHeaderFingerprint, Behavioral, Display, Storage, CSSMediaFeature, PermissionsStatus, Graphics}
    ensures RequiredFirst(ComponentFields(c))
  {
  }

  lemma LaterDeclarationsWellOrdered(c: Component)
    requires c !in {HttpHeaderFingerprint, Behavioral, Display, Storage, CSSMediaFeature, PermissionsStatus, Graphics}
    ensures RequiredFirst(ComponentFields(c))
  {
  }

  /** The aggregate has twenty fields, none defaulted, naming twenty distinct components. */
  lemma AggregateAllRequired()
    ensures |AggregateFields()| == 20
    ensures forall i :: 0 <= i < 20 ==> AggregateFields()[i].default == Required
    ensures forall i, j :: 0 <= i < j < 20 ==> AggregateSlots[i].1 != AggregateSlots[j].1
  {
  }

  /** A required field typed `X | None` must still be passed: leaving it out fails. */
  lemma RequiredFieldIsMandatory(fs: seq<DataclassField>, kwargs: seq<(string, Json)>, i: nat)
    requires i < |fs| && fs[i].default == Required && Lookup(kwargs, fs[i].name).None?
    ensures Init(fs, kwargs).Err?
  {
  }

  /** A defaulted field left out gets a fresh empty list or dict; a supplied one keeps its value. */
  lemma FactoryOnlyWhenOmitted(fs: seq<DataclassField>, kwargs: seq<(string, Json)>, i: nat)
    requires Init(fs, kwargs).Ok? && i < |fs| && fs[i].default != Required
    ensures Lookup(kwargs, fs[i].name).None? ==> Init(fs, kwargs).value[i] in {JArray([]), JObject([])}
    ensures Lookup(kwargs, fs[i].name).Some? ==> Init(fs, kwargs).value[i] == Lookup(kwargs, fs[i].name).value
  {
  }

  /**
   * Where the dataclasses and the models part ways: this header record has no
   * `referer`, this browser record declares `vendor` and `product_sub` where
   * the model has `browser` and `engine`, and these timings have no `framerate`.
   */
  lemma DataclassesDifferFromModels()
    ensures "referer" !in DataclassNames(ComponentFields(HttpHeaderFingerprint))
    ensures "referer" in FieldNames(HttpHeaderFingerprint)
    ensures DataclassNames(ComponentFields(Browser)) == ["vendor", "product_sub", "build_id", "private_mode"]
    ensures "vendor" !in FieldNames(Browser) && "product_sub" !in FieldNames(Browser)
    ensures "framerate" !in DataclassNames(ComponentFields(PerformanceTimings))
    ensures "framerate" in FieldNames(PerformanceTimings)
  {
    assert FieldNames(HttpHeaderFingerprint)[6] == "referer";
    assert FieldNames(PerformanceTimings)[3] == "framerate";
  }
}
