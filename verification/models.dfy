/**
 * The Django schema of website/fingerprint/models.py: twenty component models,
 * every field `null=True, blank=True`, and the `Fingerprint` parent that links
 * one row of each through a nullable one-to-one field. Alongside the schema:
 * what `Model(**kwargs)`, `full_clean()` and the value preparation of `save()`
 * do with a row of these models.
 */
module Models {
  import opened Wrappers
  import opened JsonData
  import opened Text
  import opened Errors
  import IpAddress

  /** The twenty component models, in declaration order. */
  datatype Component =
    | HttpHeaderFingerprint | Behavioral | Display | Storage | CSSMediaFeature
    | PermissionsStatus | Graphics | Hardware | Browser | NetworkConnection
    | TimeZone | Media | TouchPointer | PerformanceTimings | IP
    | Canvas | Plugins | EncryptedMediaCapabilities | Audio | Fonts

  const AllComponents: seq<Component> := [
    HttpHeaderFingerprint, Behavioral, Display, Storage, CSSMediaFeature,
    PermissionsStatus, Graphics, Hardware, Browser, NetworkConnection,
    TimeZone, Media, TouchPointer, PerformanceTimings, IP,
    Canvas, Plugins, EncryptedMediaCapabilities, Audio, Fonts
  ]

  /** The field kinds the components use. A JSON field carries the value its `default=list` or `default=dict` produces. */
  datatype FieldKind =
    | IntegerField
    | FloatField
    | BooleanField
    | CharField(maxLength: nat)
    | TextField
    | JsonField(default: Json)
    | GenericIpField

  datatype FieldDecl = FieldDecl(name: string, kind: FieldKind)

  const ListJson := JsonField(JArray([]))
  const DictJson := JsonField(JObject([]))

  /** A row of a component: one value per declared field, in declaration order. */
  type Row = seq<Json>

  function ModelName(c: Component): string
  {
    match c
    case HttpHeaderFingerprint => "HttpHeaderFingerprint"
    case Behavioral => "Behavioral"
    case Display => "Display"
    case Storage => "Storage"
    case CSSMediaFeature => "CSSMediaFeature"
    case PermissionsStatus => "PermissionsStatus"
    case Graphics => "Graphics"
    case Hardware => "Hardware"
    case Browser => "Browser"
    case NetworkConnection => "NetworkConnection"
    case TimeZone => "TimeZone"
    case Media => "Media"
    case TouchPointer => "TouchPointer"
    case PerformanceTimings => "PerformanceTimings"
    case IP => "IP"
    case Canvas => "Canvas"
    case Plugins => "Plugins"
    case EncryptedMediaCapabilities => "EncryptedMediaCapabilities"
    case Audio => "Audio"
    case Fonts => "Fonts"
  }

  const HttpHeaderFingerprintFields: seq<FieldDecl> := [
    FieldDecl("header_count", IntegerField), FieldDecl("http_version", CharField(20)),
    FieldDecl("tls_protocol", CharField(50)), FieldDecl("tls_cipher_suite", CharField(100)),
    FieldDecl("headers_present", ListJson), FieldDecl("unusual_headers", ListJson),
    FieldDecl("referer", CharField(100))]
  const BehavioralFields: seq<FieldDecl> := [
    FieldDecl("typing_speed", FloatField), FieldDecl("mouse_entropy", FloatField),
    FieldDecl("keystroke_dynamics", DictJson), FieldDecl("scroll_behavior", DictJson),
    FieldDecl("url_changes", ListJson), FieldDecl("time_of_visit_patterns", ListJson)]
  const DisplayFields: seq<FieldDecl> := [
    FieldDecl("screen_height", IntegerField), FieldDecl("screen_width", IntegerField),
    FieldDecl("color_depth", IntegerField), FieldDecl("device_pixel_ratio", FloatField),
    FieldDecl("color_gamut", CharField(20))]
  const StorageFields: seq<FieldDecl> := [
    FieldDecl("cookies_enabled", BooleanField), FieldDecl("storage_estimate", DictJson),
    FieldDecl("service_workers", ListJson), FieldDecl("indexeddb_dbs", ListJson),
    FieldDecl("cache_storage_keys", ListJson)]
  const CSSMediaFeatureFields: seq<FieldDecl> := [
    FieldDecl("prefers_dark_scheme", BooleanField), FieldDecl("font_smoothing", BooleanField),
    FieldDecl("reduced_motion", BooleanField), FieldDecl("reduced_data", BooleanField),
    FieldDecl("forced_colors", BooleanField)]
  const PermissionsStatusFields: seq<FieldDecl> := [
    FieldDecl("geolocation", CharField(20)), FieldDecl("notifications", CharField(20)),
    FieldDecl("camera", CharField(20)), FieldDecl("microphone", CharField(20)),
    FieldDecl("midi", CharField(20))]
  const GraphicsFields: seq<FieldDecl> := [
    FieldDecl("webgl_renderer", TextField), FieldDecl("webgl_vendor", TextField),
    FieldDecl("webgl_extensions", ListJson), FieldDecl("webgpu_adapter", DictJson)]
  const HardwareFields: seq<FieldDecl> := [
    FieldDecl("os", CharField(200)), FieldDecl("cpu_cores", IntegerField),
    FieldDecl("device_memory", FloatField), FieldDecl("device_architecture", CharField(50))]
  const BrowserFields: seq<FieldDecl> := [
    FieldDecl("browser", CharField(100)), FieldDecl("engine", CharField(100)),
    FieldDecl("build_id", CharField(100)), FieldDecl("private_mode", BooleanField)]
  const NetworkConnectionFields: seq<FieldDecl> := [
    FieldDecl("effective_type", CharField(20)), FieldDecl("downlink", FloatField),
    FieldDecl("rtt", IntegerField)]
  const TimeZoneFields: seq<FieldDecl> := [
    FieldDecl("time_zone", CharField(100)), FieldDecl("timezone_offset", IntegerField),
    FieldDecl("languages", ListJson)]
  const MediaFields: seq<FieldDecl> := [
    FieldDecl("audio_codecs", ListJson), FieldDecl("video_codecs", ListJson),
    FieldDecl("media_devices", ListJson)]
  const TouchPointerFields: seq<FieldDecl> := [
    FieldDecl("max_touch_points", IntegerField), FieldDecl("pointer_fine", BooleanField),
    FieldDecl("standalone", BooleanField)]
  const PerformanceTimingsFields: seq<FieldDecl> := [
    FieldDecl("timings", DictJson), FieldDecl("memory", DictJson),
    FieldDecl("network_timing", DictJson), FieldDecl("framerate", FloatField)]
  const IPFields: seq<FieldDecl> := [FieldDecl("ip_address", GenericIpField), FieldDecl("details", DictJson)]
  const CanvasFields: seq<FieldDecl> := [FieldDecl("canvas_hash", CharField(128)), FieldDecl("webgl_hash", CharField(128))]
  const PluginsFields: seq<FieldDecl> := [FieldDecl("installed_plugins", ListJson), FieldDecl("mime_types", ListJson)]
  const EncryptedMediaCapabilitiesFields: seq<FieldDecl> := [FieldDecl("cdm_list", ListJson)]
  const AudioFields: seq<FieldDecl> := [FieldDecl("audio_hash", CharField(128))]
  const FontsFields: seq<FieldDecl> := [FieldDecl("installed_fonts", ListJson)]

  /** The declared fields of each component model. */
  function Fields(c: Component): seq<FieldDecl>
  {
    match c
    case HttpHeaderFingerprint => HttpHeaderFingerprintFields
    case Behavioral => BehavioralFields
    case Display => DisplayFields
    case Storage => StorageFields
    case CSSMediaFeature => CSSMediaFeatureFields
    case PermissionsStatus => PermissionsStatusFields
    case Graphics => GraphicsFields
    case Hardware => HardwareFields
    case Browser => BrowserFields
    case NetworkConnection => NetworkConnectionFields
    case TimeZone => TimeZoneFields
    case Media => MediaFields
    case TouchPointer => TouchPointerFields
    case PerformanceTimings => PerformanceTimingsFields
    case IP => IPFields
    case Canvas => CanvasFields
    case Plugins => PluginsFields
    case EncryptedMediaCapabilities => EncryptedMediaCapabilitiesFields
    case Audio => AudioFields
    case Fonts => FontsFields
  }

  /** The number of fields each model declares: the width of its table's rows. */
  function Width(c: Component): nat
  {
    match c
    case HttpHeaderFingerprint => 7
    case Behavioral => 6
    case Display => 5
    case Storage => 5
    case CSSMediaFeature => 5
    case PermissionsStatus => 5
    case Graphics => 4
    case Hardware => 4
    case Browser => 4
    case NetworkConnection => 3
    case TimeZone => 3
    case Media => 3
    case TouchPointer => 3
    case PerformanceTimings => 4
    case IP => 2
    case Canvas => 2
    case Plugins => 2
    case EncryptedMediaCapabilities => 1
    case Audio => 1
    case Fonts => 1
  }

  lemma WidthIsFieldCount(c: Component)
    ensures Width(c) == |Fields(c)|
  {
  }

  function Names(decls: seq<FieldDecl>): (names: seq<string>)
    ensures |names| == |decls|
    ensures forall i :: 0 <= i < |names| ==> names[i] == decls[i].name
  {
    seq(|decls|, i requires 0 <= i < |decls| => decls[i].name)
  }

  lemma NamesCons(decls: seq<FieldDecl>)
    requires decls != []
    ensures Names(decls) == [decls[0].name] + Names(decls[1..])
  {
  }

  function FieldNames(c: Component): seq<string>
  {
    Names(Fields(c))
  }

  /** The `Fingerprint` field that links each component. */
  function SlotName(c: Component): string
  {
    match c
    case HttpHeaderFingerprint => "http_header"
    case Behavioral => "behavioral"
    case Display => "display"
    case Storage => "storage"
    case CSSMediaFeature => "css_media_feature"
    case PermissionsStatus => "permissions_status"
    case Graphics => "graphics"
    case Hardware => "hardware"
    case Browser => "browser"
    case NetworkConnection => "network_connection"
    case TimeZone => "time_zone"
    case Media => "media"
    case TouchPointer => "touch_pointer"
    case PerformanceTimings => "performance_timings"
    case IP => "ip"
    case Canvas => "canvas"
    case Plugins => "plugins"
    case EncryptedMediaCapabilities => "encrypted_media_capabilities"
    case Audio => "audio"
    case Fonts => "fonts"
  }

  /** `Field.get_default()`: the JSON fields' factories, otherwise `None` because every field is nullable. */
  function FieldDefault(kind: FieldKind): Json
  {
    if kind.JsonField? then kind.default else JNull
  }

  /**
   * `Model(**kwargs)` over the declared fields `decls`: every keyword must name
   * a declared field, else `TypeError` listing the unknown names in keyword
   * order; each field takes its keyword's value, and the default only when the
   * keyword is absent. The declared fields are those written in models.py:
   * Django would also take the implicit `id` and the `pk` property, which no
   * entry of the ingestion lists.
   */
  function ConstructRow(model: string, decls: seq<FieldDecl>, kwargs: seq<(string, Json)>): (r: Result<Row, Failure>)
    ensures r.Err? <==> exists i :: 0 <= i < |kwargs| && kwargs[i].0 !in Names(decls)
    ensures r.Err? ==> (r.error.UnexpectedKeywords? && r.error.model == model && |r.error.names| > 0
              && forall n :: n in r.error.names <==> n !in Names(decls) && exists i :: 0 <= i < |kwargs| && kwargs[i].0 == n)
    ensures r.Err? ==> IsSubsequence(r.error.names, Keys(kwargs))
    ensures r.Ok? ==> |r.value| == |decls|
    ensures r.Ok? ==> forall i :: 0 <= i < |decls| ==>
              r.value[i] == GetOr(kwargs, decls[i].name, FieldDefault(decls[i].kind))
  {
    var names := Names(decls);
    var unknown := (n: string) => n !in names;
    var unexpected := Filter(unknown, Keys(kwargs));
    FilterContents(unknown, Keys(kwargs));
    FilterIsSubsequence(unknown, Keys(kwargs));
    assert forall n :: n in unexpected <==> n in Keys(kwargs) && n !in names;
    if unexpected != [] then
      assert unexpected[0] in unexpected;
      Err(UnexpectedKeywords(model, unexpected))
    else
      assert forall i :: 0 <= i < |kwargs| ==> kwargs[i].0 in Keys(kwargs);
      Ok(seq(|decls|, i requires 0 <= i < |decls| => GetOr(kwargs, decls[i].name, FieldDefault(decls[i].kind))))
  }

  /** `Model(**kwargs)` for a component model. */
  function Construct(c: Component, kwargs: seq<(string, Json)>): (r: Result<Row, Failure>)
    ensures r.Ok? ==> |r.value| == |Fields(c)|
  {
    ConstructRow(ModelName(c), Fields(c), kwargs)
  }

  /**
   * `Field.clean` as `full_clean` applies it to one value of a `blank=True`
   * field: the empty values are skipped; otherwise the value must convert
   * (`to_python`) and pass the field's validators. An int outside the double
   * range does not convert in a float field, but it raises `OverflowError`
   * rather than a `ValidationError` (`CleanRaises`).
   */
  predicate FieldAccepts(kind: FieldKind, v: Json)
  {
    IsEmptyValue(v) ||
    match kind
    case IntegerField =>
      (match v
       case JBool(_) => true
       case JInt(_) => true
       case JFloat(_) => true
       case JStr(s) => IsIntLiteral(s)
       case _ => false)
    case FloatField =>
      (match v
       case JBool(_) => true
       case JInt(n) => InDoubleRange(n)
       case JFloat(_) => true
       case JStr(s) => IsFloatLiteral(s)
       case _ => false)
    case BooleanField =>
      (match v
       case JBool(_) => true
       case JInt(n) => n == 0 || n == 1
       case JFloat(x) => x == 0.0 || x == 1.0
       case JStr(s) => s in {"t", "True", "1", "f", "False", "0"}
       case _ => false)
    case CharField(m) =>
      (match v
       case JStr(s) => |s| <= m
       case JInt(n) => DecimalLength(n) <= m
       case JBool(b) => (if b then 4 else 5) <= m
       case _ => true)
    case TextField => true
    case JsonField(_) => true
    case GenericIpField =>
      (match v
       case JStr(s) => IpTextAccepted(Strip(s))
       case _ => false)
  }

  /**
   * `float(n)` rounds an int half to even onto the doubles. From 2^1024 - 2^970
   * on, the halfway point above the largest double 2^1024 - 2^971, the result
   * would be 2^1024, and `float` raises `OverflowError` instead.
   */
  const DoubleOverflowBound: int := 179769313486231580793728971405303415079934132710037826936173778980444968292764750946649017977587207096330286416692887910946555547851940402630657488671505820681908902000708383676273854845817711531764475730270069855571366959622842914819860834936475292719074168444365510704342711559699508093042880177904174497792

  /** The ints `float()` converts without overflowing. */
  predicate InDoubleRange(n: int)
  {
    -DoubleOverflowBound < n < DoubleOverflowBound
  }

  /**
   * A value whose cleaning raises an exception `full_clean` does not catch:
   * `FloatField.to_python` turns only `TypeError` and `ValueError` into a
   * `ValidationError`, so the `OverflowError` of `float(n)` escapes.
   */
  predicate CleanRaises(kind: FieldKind, v: Json)
  {
    kind.FloatField? && v.JInt? && !InDoubleRange(v.i)
  }

  /** The first field, from the `k`-th on, whose cleaning raises. */
  function FirstRaising(decls: seq<FieldDecl>, row: Row, k: nat): (r: Option<nat>)
    requires |row| == |decls| && k <= |decls|
    ensures r.None? <==> forall i :: k <= i < |decls| ==> !CleanRaises(decls[i].kind, row[i])
    ensures r.Some? ==> k <= r.value < |decls| && CleanRaises(decls[r.value].kind, row[r.value])
    ensures r.Some? ==> forall i :: k <= i < r.value ==> !CleanRaises(decls[i].kind, row[i])
    decreases |decls| - k
  {
    if k == |decls| then None
    else if CleanRaises(decls[k].kind, row[k]) then Some(k)
    else FirstRaising(decls, row, k + 1)
  }

  /** An int is a float field's value exactly when `float()` takes it, and otherwise its cleaning raises. */
  lemma FloatFieldOnInt(n: int)
    ensures FieldAccepts(FloatField, JInt(n)) <==> -DoubleOverflowBound < n < DoubleOverflowBound
    ensures CleanRaises(FloatField, JInt(n)) <==> !FieldAccepts(FloatField, JInt(n))
  {
    assert !IsEmptyValue(JInt(n));
  }

  /**
   * An integer field takes the text Python's `int()` takes, PEP 515
   * underscores included, and refuses doubled or dangling underscores.
   */
  lemma IntegerFieldUnderscores()
    ensures FieldAccepts(IntegerField, JStr("1_000")) && FieldAccepts(IntegerField, JStr("-0_7"))
    ensures !FieldAccepts(IntegerField, JStr("1__0")) && !FieldAccepts(IntegerField, JStr("_1"))
  {
    UnderscoreSeparatorsAccepted();
    UnderscoreSeparatorsRefused();
    IntegerFieldOnString("1_000");
    IntegerFieldOnString("-0_7");
    IntegerFieldOnString("1__0");
    IntegerFieldOnString("_1");
  }

  /** A non-blank string is accepted by an integer field iff `int()` takes it. */
  lemma IntegerFieldOnString(s: string)
    requires s != ""
    ensures FieldAccepts(IntegerField, JStr(s)) == IsIntLiteral(s)
  {
    assert !IsEmptyValue(JStr(s));
  }

  /**
   * `GenericIPAddressField` on stripped text: blank, or parsed as IPv6 when it
   * holds a `':'` and as IPv4 or IPv6 otherwise.
   */
  predicate IpTextAccepted(t: string)
  {
    t == "" || (if ':' in t then IpAddress.IsIPv6(t) else IpAddress.IsIPv4(t) || IpAddress.IsIPv6(t))
  }

  /** The names of the fields whose value `full_clean` rejects, in declaration order. */
  function Rejected(decls: seq<FieldDecl>, row: Row): (names: seq<string>)
    requires |row| == |decls|
    ensures names == [] <==> forall i :: 0 <= i < |decls| ==> FieldAccepts(decls[i].kind, row[i])
    ensures forall i :: 0 <= i < |decls| && !FieldAccepts(decls[i].kind, row[i]) ==> decls[i].name in names
    ensures forall n :: n in names ==> exists i :: 0 <= i < |decls| && decls[i].name == n && !FieldAccepts(decls[i].kind, row[i])
  {
    if decls == [] then []
    else
      var rest := Rejected(decls[1..], row[1..]);
      assert forall i :: 1 <= i < |decls| ==> decls[i] == decls[1..][i - 1] && row[i] == row[1..][i - 1];
      if FieldAccepts(decls[0].kind, row[0]) then rest else [decls[0].name] + rest
  }

  /** The `ValidationError` names the rejected fields in declaration order. */
  lemma {:induction false} RejectedInDeclarationOrder(decls: seq<FieldDecl>, row: Row)
    requires |row| == |decls|
    ensures IsSubsequence(Rejected(decls, row), Names(decls))
  {
    if decls != [] {
      var rest := Rejected(decls[1..], row[1..]);
      RejectedInDeclarationOrder(decls[1..], row[1..]);
      NamesCons(decls);
      if FieldAccepts(decls[0].kind, row[0]) {
        SubsequenceCons(rest, decls[0].name, Names(decls[1..]));
      } else {
        assert ([decls[0].name] + rest)[1..] == rest;
      }
    }
  }

  /**
   * `instance.full_clean()`: `clean_fields` cleans the fields in declaration
   * order and collects their `ValidationError`s, but the first exception it
   * does not catch ends it at once; otherwise a `ValidationError` naming every
   * rejected field, or success.
   */
  function FullClean(model: string, decls: seq<FieldDecl>, row: Row): (r: Result<(), Failure>)
    requires |row| == |decls|
    ensures r.Ok? <==> forall i :: 0 <= i < |decls| ==> FieldAccepts(decls[i].kind, row[i])
    ensures r.Err? ==> (r.error.FloatOverflow? <==> exists i :: 0 <= i < |decls| && CleanRaises(decls[i].kind, row[i]))
    ensures r.Err? && r.error.FloatOverflow? ==>
              exists i :: 0 <= i < |decls| && CleanRaises(decls[i].kind, row[i]) && r.error.field == decls[i].name
                && forall j :: 0 <= j < i ==> !CleanRaises(decls[j].kind, row[j])
    ensures r.Err? && !r.error.FloatOverflow? ==> r.error == Invalid(model, Rejected(decls, row))
  {
    var raising := FirstRaising(decls, row, 0);
    if raising.Some? then Err(FloatOverflow(decls[raising.value].name))
    else
      var rejected := Rejected(decls, row);
      if rejected == [] then Ok(()) else Err(Invalid(model, rejected))
  }

  /** A value `get_prep_value` of a numeric field cannot turn into a number: `int('')`, `float([])` and so on. */
  predicate SaveRejects(kind: FieldKind, v: Json)
  {
    (kind.IntegerField? || kind.FloatField?) && v in {JStr(""), JArray([]), JObject([])}
  }

  /**
   * The value preparation of `instance.save()`. `full_clean` leaves blank values
   * as they were, so an integer or float field holding `''`, `[]` or `{}` fails
   * here, at the first such field in declaration order.
   */
  function SaveCheck(decls: seq<FieldDecl>, row: Row): (r: Result<(), Failure>)
    requires |row| == |decls|
    ensures r.Ok? <==> forall i :: 0 <= i < |decls| ==> !SaveRejects(decls[i].kind, row[i])
    ensures r.Err? ==> exists i :: (0 <= i < |decls| && SaveRejects(decls[i].kind, row[i])
              && r.error == NotANumber(decls[i].name, row[i])
              && forall j :: 0 <= j < i ==> !SaveRejects(decls[j].kind, row[j]))
  {
    if decls == [] then Ok(())
    else if SaveRejects(decls[0].kind, row[0]) then Err(NotANumber(decls[0].name, row[0]))
    else
      var r := SaveCheck(decls[1..], row[1..]);
      assert forall i :: 1 <= i < |decls| ==> decls[i] == decls[1..][i - 1] && row[i] == row[1..][i - 1];
      r
  }

  /** The row with every field `None`. */
  function NoneRow(c: Component): (row: Row)
    ensures |row| == |Fields(c)|
  {
    seq(|Fields(c)|, _ => JNull)
  }

  /** Every field is `null=True, blank=True`: a row of `None`s passes `full_clean` and `save`. */
  lemma NoneRowIsStorable(c: Component)
    ensures FullClean(ModelName(c), Fields(c), NoneRow(c)).Ok?
    ensures SaveCheck(Fields(c), NoneRow(c)).Ok?
  {
  }

  /** `max_length` is enforced exactly: a string is accepted by a `CharField` iff it is no longer than the limit. */
  lemma CharFieldLimit(m: nat, s: string)
    ensures FieldAccepts(CharField(m), JStr(s)) <==> |s| <= m
  {
  }

  /**
   * The `ip_address` rule: a string is accepted iff it is blank after stripping
   * or the stripped text is an IPv4 or an IPv6 address. The `':'` dispatch of
   * `GenericIPAddressField` loses nothing, because IPv4 addresses hold no colon
   * and IPv6 addresses always do.
   */
  lemma IpAddressRule(s: string)
    ensures FieldAccepts(GenericIpField, JStr(s)) <==>
      Strip(s) == "" || IpAddress.IsIPv4(Strip(s)) || IpAddress.IsIPv6(Strip(s))
  {
    IpFieldOnString(s);
    ColonDispatch(Strip(s));
    if s == "" {
      StripEmpty();
    }
  }

  /** On a string, the `ip_address` field checks the stripped text, after letting `''` through. */
  lemma IpFieldOnString(s: string)
    ensures FieldAccepts(GenericIpField, JStr(s)) == (s == "" || IpTextAccepted(Strip(s)))
  {
    if s != "" {
      assert !IsEmptyValue(JStr(s));
    }
  }

  lemma StripEmpty()
    ensures Strip("") == ""
  {
    assert TrimStart("") == "";
  }

  /** Choosing the parser by `':' in t` accepts exactly the IPv4 and the IPv6 addresses. */
  lemma ColonDispatch(t: string)
    ensures IpTextAccepted(t) <==> t == "" || IpAddress.IsIPv4(t) || IpAddress.IsIPv6(t)
  {
    if IpAddress.IsIPv4(t) {
      IpAddress.IPv4HasNoColon(t);
    }
    if IpAddress.IsIPv6(t) {
      IpAddress.IPv6HasColon(t);
    }
  }

  /** Only strings can be IP addresses: any other non-empty value is rejected. */
  lemma IpAddressNeedsString(v: Json)
    requires !v.JStr? && !IsEmptyValue(v)
    ensures !FieldAccepts(GenericIpField, v)
  {
  }

  /** The JSON fields take their fresh `[]` or `{}` only when the keyword is omitted; an explicit `None` is kept. */
  lemma JsonDefaultOnlyWhenOmitted(c: Component, kwargs: seq<(string, Json)>, i: nat)
    requires Construct(c, kwargs).Ok? && i < |Fields(c)| && Fields(c)[i].kind.JsonField?
    ensures Lookup(kwargs, Fields(c)[i].name).None? ==> Construct(c, kwargs).value[i] == Fields(c)[i].kind.default
    ensures Lookup(kwargs, Fields(c)[i].name) == Some(JNull) ==> Construct(c, kwargs).value[i] == JNull
  {
  }

  /** The position of each component in declaration order. */
  function Ordinal(c: Component): nat
  {
    match c
    case HttpHeaderFingerprint => 0
    case Behavioral => 1
    case Display => 2
    case Storage => 3
    case CSSMediaFeature => 4
    case PermissionsStatus => 5
    case Graphics => 6
    case Hardware => 7
    case Browser => 8
    case NetworkConnection => 9
    case TimeZone => 10
    case Media => 11
    case TouchPointer => 12
    case PerformanceTimings => 13
    case IP => 14
    case Canvas => 15
    case Plugins => 16
    case EncryptedMediaCapabilities => 17
    case Audio => 18
    case Fonts => 19
  }

  /** The twenty components, each once; the `Fingerprint` slot names are distinct. */
  lemma SlotsDistinct()
    ensures |AllComponents| == 20
    ensures forall c :: Ordinal(c) < 20 && AllComponents[Ordinal(c)] == c
    ensures forall i, j :: 0 <= i < j < |AllComponents| ==> AllComponents[i] != AllComponents[j]
    ensures forall i, j :: 0 <= i < j < |AllComponents| ==> SlotName(AllComponents[i]) != SlotName(AllComponents[j])
  {
    ComponentsIndexed();
    SlotNamesDistinct();
  }

  /** Each component sits at its ordinal in `AllComponents`. */
  lemma ComponentsIndexed()
    ensures |AllComponents| == 20
    ensures forall c :: Ordinal(c) < 20 && AllComponents[Ordinal(c)] == c
    ensures forall i :: 0 <= i < 20 ==> Ordinal(AllComponents[i]) == i
  {
  }

  /** The slot names of the components in `AllComponents` are pairwise different. */
  lemma SlotNamesDistinct()
    ensures |AllComponents| == 20
    ensures forall i, j :: 0 <= i < j < 20 ==> SlotName(AllComponents[i]) != SlotName(AllComponents[j])
  {
  }
}
