/**
 * The normalize-and-persist pipeline of website/fingerprint/helpers.py.
 *
 * `create_fingerprint_model` projects a client dict onto a field list, builds
 * the model instance, validates it and saves it. `build_fingerprint_components`
 * makes twenty such calls, one per component, written as a dict literal; the
 * model keeps that literal as a table of `PlanEntry`s, in the literal's order.
 * `create_fingerprint` then inserts the `Fingerprint` row linking the twenty
 * rows. Each step has a specification function over `StoreState`, which
 * returns the result together with the database as the step leaves it, and a
 * method that performs the step on a `Store`.
 */
module Helpers {
  import opened Wrappers
  import opened JsonData
  import opened Text
  import opened Errors
  import opened Models
  import opened Datastore
  import Dataclasses

  /** A result together with the database as the operation leaves it (partial writes included). */
  datatype Outcome<T> = Outcome(result: Result<T, Failure>, state: StoreState)

  /** One `create_fingerprint_model` call of the dict literal: its key, the model, the client key it reads and the field list. */
  datatype PlanEntry = PlanEntry(key: string, component: Component, clientKey: string, fields: seq<string>)

  /** The dict literal of `build_fingerprint_components`, entry by entry. */
  const AsWrittenPlan: seq<PlanEntry> := [
    PlanEntry("ip", IP, "ip", ["ip_address", "details"]),
    PlanEntry("audio", Audio, "audio", ["audio_hash"]),
    PlanEntry("behavioral", Behavioral, "behavioral", BehavioralEntryFields),
    PlanEntry("browser", Browser, "browser", AsWrittenBrowserFields),
    PlanEntry("canvas", Canvas, "canvas", ["canvas_hash", "webgl_hash"]),
    PlanEntry("css_features", CSSMediaFeature, "css_features", [
      "prefers_dark_scheme", "font_smoothing", "reduced_motion", "reduced_data", "forced_colors"]),
    PlanEntry("display", Display, "display", [
      "screen_height", "screen_width", "color_depth", "device_pixel_ratio", "color_gamut"]),
    PlanEntry("fonts", Fonts, "fonts", ["installed_fonts"]),
    PlanEntry("graphics", Graphics, "graphics", [
      "webgl_renderer", "webgl_vendor", "webgl_extensions", "webgpu_adapter"]),
    PlanEntry("hardware", Hardware, "hardware", ["os", "cpu_cores", "device_memory", "device_architecture"]),
    PlanEntry("http_header", HttpHeaderFingerprint, "http_header_fingerprint", HttpHeaderEntryFields),
    PlanEntry("media", Media, "media", ["audio_codecs", "video_codecs", "media_devices"]),
    PlanEntry("network", NetworkConnection, "network", ["effective_type", "downlink", "rtt"]),
    PlanEntry("performance", PerformanceTimings, "performance", ["timings", "memory", "network_timing"]),
    PlanEntry("permissions", PermissionsStatus, "permissions", [
      "geolocation", "notifications", "camera", "microphone", "midi"]),
    PlanEntry("plugins", Plugins, "plugins", ["installed_plugins", "mime_types"]),
    PlanEntry("encrypted_media", EncryptedMediaCapabilities, "encrypted_media_capabilities", ["cdm_list"]),
    PlanEntry("storage", Storage, "storage", [
      "cookies_enabled", "storage_estimate", "service_workers", "indexeddb_dbs", "cache_storage_keys"]),
    PlanEntry("time_zone", TimeZone, "time_zone", ["time_zone", "timezone_offset", "languages"]),
    PlanEntry("touch_pointer", TouchPointer, "touch_pointer", ["max_touch_points", "pointer_fine", "standalone"])
  ]

  /** The field list of the browser entry as written. */
  const AsWrittenBrowserFields: seq<string> := ["vendor", "product_sub", "build_id", "private_mode"]

  /** The field list of the behavioral entry: every field the `Behavioral` model declares, in order. */
  const BehavioralEntryFields: seq<string> := [
    "typing_speed", "mouse_entropy", "keystroke_dynamics",
    "scroll_behavior", "url_changes", "time_of_visit_patterns"]

  /** The field list of the http_header entry. */
  const HttpHeaderEntryFields: seq<string> :=
    ["header_count", "http_version", "tls_protocol", "tls_cipher_suite", "headers_present", "unusual_headers"]

  /** The browser entry with the fields the `Browser` model declares (and the browser collector sends). */
  const CorrectedBrowserEntry := PlanEntry("browser", Browser, "browser", ["browser", "engine", "build_id", "private_mode"])

  /** The dict literal with its browser entry corrected; every other entry is unchanged. */
  const CorrectedPlan: seq<PlanEntry> := AsWrittenPlan[3 := CorrectedBrowserEntry]

  /** The key under which `create_fingerprint` looks up the component for each `Fingerprint` slot. */
  function SlotKey(c: Component): string
  {
    match c
    case CSSMediaFeature => "css_features"
    case PermissionsStatus => "permissions"
    case NetworkConnection => "network"
    case PerformanceTimings => "performance"
    case EncryptedMediaCapabilities => "encrypted_media"
    case _ => SlotName(c)
  }

  /**
   * The projection of `create_fingerprint_model` for the model class named
   * `model`. With a field list it builds `{field: data.get(field) for field in
   * fields}`, which needs `data` to be a dict as soon as the list is non-empty;
   * without one it passes `data` on, which `Model(**data)` needs to be a mapping.
   */
  function Project(model: string, data: Json, fields: Option<seq<string>>): (r: Result<seq<(string, Json)>, Failure>)
    ensures fields.None? ==> (r.Ok? <==> data.JObject?) && (r.Ok? ==> r.value == data.members)
    ensures fields.Some? ==> (r.Ok? <==> data.JObject? || fields.value == [])
    ensures fields.Some? && r.Ok? ==> (|r.value| == |fields.value|
      && forall i :: 0 <= i < |fields.value| ==> r.value[i].0 == fields.value[i])
    ensures fields.Some? && data.JObject? ==> r.Ok? && r.value == Projected(data.members, fields.value)
    ensures r.Err? ==> r.error == (if fields.None? then NotAMapping(model, TypeName(data)) else NoGetAttribute(TypeName(data)))
  {
    match fields
    case None => if data.JObject? then Ok(data.members) else Err(NotAMapping(model, TypeName(data)))
    case Some(fs) =>
      if fs == [] then Ok([])
      else if data.JObject? then Ok(Projected(data.members, fs))
      else Err(NoGetAttribute(TypeName(data)))
  }

  /**
   * `{field: data.get(field) for field in fields}` on a dict: exactly the
   * listed keys, in order, each with the client's value or `None`.
   */
  function Projected(ms: seq<(string, Json)>, fs: seq<string>): (kwargs: seq<(string, Json)>)
    ensures |kwargs| == |fs|
    ensures forall i :: 0 <= i < |fs| ==> kwargs[i] == (fs[i], GetOr(ms, fs[i], JNull))
  {
    seq(|fs|, i requires 0 <= i < |fs| => (fs[i], GetOr(ms, fs[i], JNull)))
  }

  /**
   * The row `create_fingerprint_model` saves for a model named `model` with
   * fields `decls`: projected, constructed, validated by `full_clean` and
   * prepared by `save`, the first failing step deciding the error.
   */
  function CheckedRowOf(model: string, decls: seq<FieldDecl>, data: Json, fields: Option<seq<string>>): (r: Result<Row, Failure>)
    ensures r.Ok? ==> (Project(model, data, fields).Ok?
      && r == ConstructRow(model, decls, Project(model, data, fields).value))
    ensures r.Ok? ==> |r.value| == |decls| && FullClean(model, decls, r.value).Ok? && SaveCheck(decls, r.value).Ok?
    ensures Project(model, data, fields).Err? ==> r == Err(Project(model, data, fields).error)
    ensures Project(model, data, fields).Ok? && ConstructRow(model, decls, Project(model, data, fields).value).Err? ==>
      r == ConstructRow(model, decls, Project(model, data, fields).value)
    ensures Project(model, data, fields).Ok? && ConstructRow(model, decls, Project(model, data, fields).value).Ok? ==>
      var row := ConstructRow(model, decls, Project(model, data, fields).value).value;
      FullClean(model, decls, row).Err? ==> r == Err(FullClean(model, decls, row).error)
  {
    var kwargs := Project(model, data, fields);
    if kwargs.Err? then Err(kwargs.error)
    else
      var row := ConstructRow(model, decls, kwargs.value);
      if row.Err? then row
      else
        var cleaned := FullClean(model, decls, row.value);
        if cleaned.Err? then Err(cleaned.error)
        else
          var saved := SaveCheck(decls, row.value);
          if saved.Err? then Err(saved.error) else row
  }

  /** `create_fingerprint_model`'s row for a component model, one value per declared field. */
  function CheckedRow(c: Component, data: Json, fields: Option<seq<string>>): (r: Result<Row, Failure>)
    ensures r.Ok? ==> |r.value| == Width(c)
  {
    WidthIsFieldCount(c);
    CheckedRowOf(ModelName(c), Fields(c), data, fields)
  }

  /** A row `create_fingerprint_model` saves has passed `full_clean` and `save`'s own checks. */
  lemma CheckedRowAccepted(c: Component, data: Json, fields: Option<seq<string>>)
    requires CheckedRow(c, data, fields).Ok?
    ensures |CheckedRow(c, data, fields).value| == |Fields(c)|
    ensures FullClean(ModelName(c), Fields(c), CheckedRow(c, data, fields).value).Ok?
    ensures SaveCheck(Fields(c), CheckedRow(c, data, fields).value).Ok?
  {
  }

  /** `create_fingerprint_model(model_cls, data, fields)`: on success one new row; on failure nothing written. */
  function CreateModelResult(s: StoreState, c: Component, data: Json, fields: Option<seq<string>>): (r: Outcome<nat>)
    ensures r.result.Err? <==> CheckedRow(c, data, fields).Err?
    ensures r.result.Err? ==> r.state == s && r.result.error == CheckedRow(c, data, fields).error
    ensures r.result.Ok? ==> (r.state, r.result.value) == InsertRow(s, c, CheckedRow(c, data, fields).value)
  {
    var row := CheckedRow(c, data, fields);
    if row.Err? then Outcome(Err(row.error), s)
    else
      var (s', id) := InsertRow(s, c, row.value);
      Outcome(Ok(id), s')
  }

  /** `data.get(key, {})`: the client's part for one component, or `AttributeError` when `data` is not a dict. */
  function ClientPart(data: Json, key: string): (r: Result<Json, Failure>)
    ensures r.Ok? <==> data.JObject?
    ensures r.Ok? ==> r.value == GetOr(data.members, key, JObject([]))
  {
    if data.JObject? then Ok(GetOr(data.members, key, JObject([]))) else Err(NoGetAttribute(TypeName(data)))
  }

  /** The components dict: key to (model, primary key of the saved row). */
  type Components = map<string, (Component, nat)>

  /** One entry of the dict literal evaluated on top of `prev`. */
  function BuildStep(prev: Outcome<Components>, data: Json, e: PlanEntry): Outcome<Components>
  {
    if prev.result.Err? then prev
    else
      var part := ClientPart(data, e.clientKey);
      if part.Err? then Outcome(Err(part.error), prev.state)
      else
        var m := CreateModelResult(prev.state, e.component, part.value, Some(e.fields));
        if m.result.Err? then Outcome(Err(m.result.error), m.state)
        else Outcome(Ok(prev.result.value[e.key := (e.component, m.result.value)]), m.state)
  }

  /**
   * `build_fingerprint_components(data)`: the entries evaluated in order; the
   * first failure stops the evaluation and leaves the rows already saved.
   */
  function BuildResult(s: StoreState, data: Json, plan: seq<PlanEntry>): Outcome<Components>
  {
    if plan == [] then Outcome(Ok(map[]), s)
    else BuildStep(BuildResult(s, data, plan[..|plan| - 1]), data, plan[|plan| - 1])
  }

  /** The first slot, in `create_fingerprint`'s keyword order, whose key the components dict lacks. */
  function FirstMissingKey(comps: Components, slots: seq<Component>): (r: Option<string>)
    ensures r.None? <==> forall i :: 0 <= i < |slots| ==> SlotKey(slots[i]) in comps
    ensures r.Some? ==> r.value !in comps
  {
    if slots == [] then None
    else if SlotKey(slots[0]) !in comps then Some(SlotKey(slots[0]))
    else
      var r := FirstMissingKey(comps, slots[1..]);
      assert forall i :: 1 <= i < |slots| ==> slots[i] == slots[1..][i - 1];
      r
  }

  /** The first slot given a row of another model. */
  function FirstMismatch(comps: Components, slots: seq<Component>): (r: Option<Component>)
    requires forall i :: 0 <= i < |slots| ==> SlotKey(slots[i]) in comps
    ensures r.None? <==> forall i :: 0 <= i < |slots| ==> comps[SlotKey(slots[i])].0 == slots[i]
    ensures r.Some? ==> r.value in slots && comps[SlotKey(r.value)].0 != r.value
  {
    if slots == [] then None
    else if comps[SlotKey(slots[0])].0 != slots[0] then Some(slots[0])
    else
      var r := FirstMismatch(comps, slots[1..]);
      assert forall i :: 1 <= i < |slots| ==> slots[i] == slots[1..][i - 1];
      r
  }

  /** Every slot's key is in the components dict and holds a row of the slot's model. */
  predicate SlotsFilled(comps: Components)
  {
    forall i :: 0 <= i < |AllComponents| ==>
      SlotKey(AllComponents[i]) in comps && comps[SlotKey(AllComponents[i])].0 == AllComponents[i]
  }

  /** The links of the new `Fingerprint` row: every slot, filled from the components dict. */
  function SlotLinks(comps: Components): (links: Result<map<Component, nat>, Failure>)
    ensures links.Ok? <==> SlotsFilled(comps)
    ensures links.Ok? ==> forall c :: c in links.value <==> c in AllComponents
    ensures links.Ok? ==> forall c :: c in links.value ==> links.value[c] == comps[SlotKey(c)].1
  {
    var missing := FirstMissingKey(comps, AllComponents);
    if missing.Some? then Err(MissingKey(missing.value))
    else
      var wrong := FirstMismatch(comps, AllComponents);
      if wrong.Some? then Err(WrongInstance(SlotName(wrong.value), ModelName(comps[SlotKey(wrong.value)].0)))
      else Ok(map c | c in AllComponents :: comps[SlotKey(c)].1)
  }

  /** `create_fingerprint(data)`: the twenty components, then the `Fingerprint` row linking them, stamped `now`. */
  function CreateResult(s: StoreState, data: Json, plan: seq<PlanEntry>, now: int): Outcome<nat>
  {
    var built := BuildResult(s, data, plan);
    if built.result.Err? then Outcome(Err(built.result.error), built.state)
    else
      var links := SlotLinks(built.result.value);
      if links.Err? then Outcome(Err(links.error), built.state)
      else
        var (s', id) := InsertFingerprint(built.state, now, links.value);
        Outcome(Ok(id), s')
  }

  /** A dict whose every member under `key` holds `v` (and has one) yields `v` for `key`. */
  lemma LookupUniform(members: seq<(string, Json)>, key: string, v: Json, i: nat)
    requires i < |members| && members[i].0 == key
    requires forall j :: 0 <= j < |members| && members[j].0 == key ==> members[j].1 == v
    ensures Lookup(members, key) == Some(v)
  {
  }

  lemma ListedButMissingRow(model: string, decls: seq<FieldDecl>, ms: seq<(string, Json)>, fs: seq<string>, i: nat)
    requires ConstructRow(model, decls, Projected(ms, fs)).Ok?
    requires i < |decls| && decls[i].name in fs && Lookup(ms, decls[i].name).None?
    ensures ConstructRow(model, decls, Projected(ms, fs)).value[i] == JNull
  {
    var name := decls[i].name;
    var kwargs := Projected(ms, fs);
    var k :| 0 <= k < |fs| && fs[k] == name;
    LookupUniform(kwargs, name, JNull, k);
  }

  /**
   * The projection decides, not the model default: a listed field the client
   * left out is passed as `None`, so even a JSON field is stored as `None`
   * rather than as its `[]` or `{}` default.
   */
  lemma ListedButMissingIsNone(c: Component, ms: seq<(string, Json)>, fs: seq<string>, i: nat)
    requires CheckedRow(c, JObject(ms), Some(fs)).Ok?
    requires i < |Fields(c)| && Fields(c)[i].name in fs && Lookup(ms, Fields(c)[i].name).None?
    ensures CheckedRow(c, JObject(ms), Some(fs)).value[i] == JNull
  {
    ListedButMissingRow(ModelName(c), Fields(c), ms, fs, i);
  }

  lemma UnlistedRowDefault(model: string, decls: seq<FieldDecl>, data: Json, fs: seq<string>, i: nat)
    requires CheckedRowOf(model, decls, data, Some(fs)).Ok?
    requires i < |decls| && decls[i].name !in fs
    ensures CheckedRowOf(model, decls, data, Some(fs)).value[i] == FieldDefault(decls[i].kind)
  {
    var kwargs := Project(model, data, Some(fs)).value;
    assert forall j :: 0 <= j < |kwargs| ==> kwargs[j].0 != decls[i].name;
  }

  /** An unlisted field takes the model default: `None`, or the JSON field's fresh `[]`/`{}`. */
  lemma UnlistedTakesDefault(c: Component, data: Json, fs: seq<string>, i: nat)
    requires CheckedRow(c, data, Some(fs)).Ok?
    requires i < |Fields(c)| && Fields(c)[i].name !in fs
    ensures CheckedRow(c, data, Some(fs)).value[i] == FieldDefault(Fields(c)[i].kind)
  {
    UnlistedRowDefault(ModelName(c), Fields(c), data, fs, i);
  }

  /** An error stops `build_fingerprint_components`: the later entries are never evaluated. */
  lemma {:induction false} ErrorSticky(s: StoreState, data: Json, plan: seq<PlanEntry>, k: nat)
    requires k <= |plan| && BuildResult(s, data, plan[..k]).result.Err?
    ensures BuildResult(s, data, plan) == BuildResult(s, data, plan[..k])
    decreases |plan|
  {
    if k < |plan| {
      assert plan[..|plan| - 1][..k] == plan[..k];
      ErrorSticky(s, data, plan[..|plan| - 1], k);
    } else {
      assert plan[..k] == plan;
    }
  }

  predicate InPlan(c: Component, plan: seq<PlanEntry>)
  {
    exists k :: 0 <= k < |plan| && plan[k].component == c
  }

  /** No two entries share a model or a key. */
  predicate DistinctEntries(plan: seq<PlanEntry>)
  {
    forall i, j :: 0 <= i < j < |plan| ==> plan[i].component != plan[j].component && plan[i].key != plan[j].key
  }

  /** Every row of `t` is still in `t'`, unchanged. */
  predicate Extends(t: Table, t': Table)
  {
    forall id :: id in t.rows ==> id in t'.rows && t'.rows[id] == t.rows[id]
  }

  /** What a run of the build did to the database: component rows only, one per entry, nothing else touched. */
  predicate BuildEffect(s: StoreState, s': StoreState, plan: seq<PlanEntry>, n: nat)
  {
    n <= |plan| && ValidState(s')
    && s'.fingerprints == s.fingerprints && s'.nextFingerprintId == s.nextFingerprintId
    && (forall c :: Extends(TableOf(s, c), TableOf(s', c)))
    && (forall c :: !InPlan(c, plan[..n]) ==> TableOf(s', c) == TableOf(s, c))
    && (forall c :: InPlan(c, plan[..n]) ==> |TableOf(s', c).rows| == |TableOf(s, c).rows| + 1)
  }

  /** On success, each entry's key holds a row of its model that the run created. */
  predicate BuiltEntries(s: StoreState, s': StoreState, plan: seq<PlanEntry>, comps: Components)
  {
    forall k :: 0 <= k < |plan| ==>
      plan[k].key in comps && comps[plan[k].key].0 == plan[k].component
      && comps[plan[k].key].1 in TableOf(s', plan[k].component).rows
      && comps[plan[k].key].1 !in TableOf(s, plan[k].component).rows
  }

  /** One more saved row, for an entry whose model the earlier entries did not use, extends the build's effect. */
  lemma InsertExtendsEffect(s: StoreState, s1: StoreState, plan: seq<PlanEntry>, row: Row)
    requires |plan| > 0 && BuildEffect(s, s1, plan[..|plan| - 1], |plan| - 1)
    requires |row| == Width(plan[|plan| - 1].component)
    requires !InPlan(plan[|plan| - 1].component, plan[..|plan| - 1])
    ensures BuildEffect(s, InsertRow(s1, plan[|plan| - 1].component, row).0, plan, |plan|)
  {
    var init := plan[..|plan| - 1];
    var c := plan[|plan| - 1].component;
    var s2 := InsertRow(s1, c, row).0;
    InsertRowPreserves(s1, c, row);
    assert init[..|init|] == init && plan[..|plan|] == plan;
    assert InPlan(c, plan);
    forall d | InPlan(d, plan) && d != c ensures InPlan(d, init) {
      var k :| 0 <= k < |plan| && plan[k].component == d;
      assert init[k] == plan[k];
    }
  }

  /** The entries built so far keep their rows when one more entry with a new key and a new model is built. */
  lemma InsertExtendsEntries(s: StoreState, s1: StoreState, plan: seq<PlanEntry>, comps: Components, row: Row)
    requires |plan| > 0 && DistinctEntries(plan)
    requires BuiltEntries(s, s1, plan[..|plan| - 1], comps)
    requires TableValid(TableOf(s1, plan[|plan| - 1].component))
    requires TableOf(s1, plan[|plan| - 1].component) == TableOf(s, plan[|plan| - 1].component)
    ensures var e := plan[|plan| - 1];
      var (s2, id) := InsertRow(s1, e.component, row);
      BuiltEntries(s, s2, plan, comps[e.key := (e.component, id)])
  {
    var init := plan[..|plan| - 1];
    var e := plan[|plan| - 1];
    var (s2, id) := InsertRow(s1, e.component, row);
    InsertRowFrame(s1, e.component, row);
    var comps' := comps[e.key := (e.component, id)];
    forall k | 0 <= k < |plan|
      ensures plan[k].key in comps' && comps'[plan[k].key].0 == plan[k].component
      ensures comps'[plan[k].key].1 in TableOf(s2, plan[k].component).rows
      ensures comps'[plan[k].key].1 !in TableOf(s, plan[k].component).rows
    {
      if k < |init| {
        assert init[k] == plan[k];
        assert plan[k].key != e.key && plan[k].component != e.component;
      }
    }
  }

  /**
   * Whatever the outcome, the build keeps the database valid and writes only
   * component rows: on failure the rows of the entries before the failing one,
   * on success exactly one new row per entry.
   */
  lemma {:induction false} BuildEffects(s: StoreState, data: Json, plan: seq<PlanEntry>)
    requires ValidState(s) && DistinctEntries(plan)
    ensures exists n :: 0 <= n <= |plan| && BuildEffect(s, BuildResult(s, data, plan).state, plan, n)
    ensures BuildResult(s, data, plan).result.Ok? ==>
      BuildEffect(s, BuildResult(s, data, plan).state, plan, |plan|)
      && BuiltEntries(s, BuildResult(s, data, plan).state, plan, BuildResult(s, data, plan).result.value)
    decreases |plan|
  {
    if plan == [] {
      assert BuildEffect(s, BuildResult(s, data, plan).state, plan, 0);
    } else {
      var init := plan[..|plan| - 1];
      assert DistinctEntries(init);
      BuildEffects(s, data, init);
      BuildStepEffects(s, data, plan, init);
    }
  }

  /** An effect over the first `n` entries is the same effect for any plan that starts with them. */
  lemma EffectOnLongerPlan(s: StoreState, s1: StoreState, plan: seq<PlanEntry>, n: nat)
    requires |plan| > 0 && n < |plan| && BuildEffect(s, s1, plan[..|plan| - 1], n)
    ensures BuildEffect(s, s1, plan, n)
  {
    assert plan[..|plan| - 1][..n] == plan[..n];
  }

  /** The inductive step of `BuildEffects`: one more entry evaluated on top of the earlier ones. */
  lemma BuildStepEffects(s: StoreState, data: Json, plan: seq<PlanEntry>, init: seq<PlanEntry>)
    requires ValidState(s) && |plan| > 0 && DistinctEntries(plan) && init == plan[..|plan| - 1]
    requires exists n :: 0 <= n <= |init| && BuildEffect(s, BuildResult(s, data, init).state, init, n)
    requires BuildResult(s, data, init).result.Ok? ==>
      BuildEffect(s, BuildResult(s, data, init).state, init, |init|)
      && BuiltEntries(s, BuildResult(s, data, init).state, init, BuildResult(s, data, init).result.value)
    ensures exists n :: 0 <= n <= |plan| && BuildEffect(s, BuildResult(s, data, plan).state, plan, n)
    ensures BuildResult(s, data, plan).result.Ok? ==>
      BuildEffect(s, BuildResult(s, data, plan).state, plan, |plan|)
      && BuiltEntries(s, BuildResult(s, data, plan).state, plan, BuildResult(s, data, plan).result.value)
  {
    var prev := BuildResult(s, data, init);
    var n :| 0 <= n <= |init| && BuildEffect(s, prev.state, init, n);
    var b := BuildResult(s, data, plan);
    assert b == BuildStep(prev, data, plan[|plan| - 1]);
    if b.result.Ok? {
      BuildStepOk(s, data, plan);
    } else {
      assert b.state == prev.state;
      EffectOnLongerPlan(s, prev.state, plan, n);
    }
  }

  /** A successful step saves one row for the new entry and records it under the entry's key. */
  lemma BuildStepOk(s: StoreState, data: Json, plan: seq<PlanEntry>)
    requires |plan| > 0 && DistinctEntries(plan)
    requires var prev := BuildResult(s, data, plan[..|plan| - 1]);
      prev.result.Ok?
      && BuildEffect(s, prev.state, plan[..|plan| - 1], |plan| - 1)
      && BuiltEntries(s, prev.state, plan[..|plan| - 1], prev.result.value)
    requires BuildResult(s, data, plan).result.Ok?
    ensures BuildEffect(s, BuildResult(s, data, plan).state, plan, |plan|)
    ensures BuiltEntries(s, BuildResult(s, data, plan).state, plan, BuildResult(s, data, plan).result.value)
  {
    var prev := BuildResult(s, data, plan[..|plan| - 1]);
    var e := plan[|plan| - 1];
    assert BuildResult(s, data, plan) == BuildStep(prev, data, e);
    var row := StepInsertsRow(prev, data, e);
    InsertExtends(s, prev.state, plan, prev.result.value, row);
  }

  /** `InsertExtendsEffect` and `InsertExtendsEntries` together, for the entry's own table. */
  lemma InsertExtends(s: StoreState, s1: StoreState, plan: seq<PlanEntry>, comps: Components, row: Row)
    requires |plan| > 0 && DistinctEntries(plan)
    requires BuildEffect(s, s1, plan[..|plan| - 1], |plan| - 1)
    requires BuiltEntries(s, s1, plan[..|plan| - 1], comps)
    requires |row| == Width(plan[|plan| - 1].component)
    ensures var e := plan[|plan| - 1];
      var (s2, id) := InsertRow(s1, e.component, row);
      BuildEffect(s, s2, plan, |plan|) && BuiltEntries(s, s2, plan, comps[e.key := (e.component, id)])
  {
    var init := plan[..|plan| - 1];
    var e := plan[|plan| - 1];
    InsertExtendsEffect(s, s1, plan, row);
    assert TableOf(s1, e.component) == TableOf(s, e.component);
    InsertExtendsEntries(s, s1, plan, comps, row);
  }

  /** A successful step is one saved row of the entry's model, recorded under the entry's key. */
  lemma StepInsertsRow(prev: Outcome<Components>, data: Json, e: PlanEntry) returns (row: Row)
    requires BuildStep(prev, data, e).result.Ok?
    ensures prev.result.Ok? && |row| == Width(e.component)
    ensures var (s2, id) := InsertRow(prev.state, e.component, row);
      BuildStep(prev, data, e) == Outcome(Ok(prev.result.value[e.key := (e.component, id)]), s2)
  {
    var part := ClientPart(data, e.clientKey).value;
    row := CheckedRow(e.component, part, Some(e.fields)).value;
  }

  /** Every `Fingerprint` slot is filled by the entry for its model, under the key `create_fingerprint` looks up. */
  predicate CoversSlots(plan: seq<PlanEntry>)
  {
    forall c :: HasSlotEntry(plan, c)
  }

  /** Some entry builds a row of `c` under the key of `c`'s slot. */
  predicate HasSlotEntry(plan: seq<PlanEntry>, c: Component)
  {
    exists k :: 0 <= k < |plan| && plan[k].component == c && plan[k].key == SlotKey(c)
  }

  /** The position of each model's entry in the dict literal. */
  function PlanIndex(c: Component): nat
  {
    match c
    case IP => 0
    case Audio => 1
    case Behavioral => 2
    case Browser => 3
    case Canvas => 4
    case CSSMediaFeature => 5
    case Display => 6
    case Fonts => 7
    case Graphics => 8
    case Hardware => 9
    case HttpHeaderFingerprint => 10
    case Media => 11
    case NetworkConnection => 12
    case PerformanceTimings => 13
    case PermissionsStatus => 14
    case Plugins => 15
    case EncryptedMediaCapabilities => 16
    case Storage => 17
    case TimeZone => 18
    case TouchPointer => 19
  }

  /** Entry `k` sits at its model's position and uses the model's slot key. */
  predicate EntryAligned(plan: seq<PlanEntry>, k: nat)
  {
    k < |plan| && PlanIndex(plan[k].component) == k && plan[k].key == SlotKey(plan[k].component)
  }

  /** Entry `k` reads the aggregate's client key `k` and lists exactly that dataclass's fields. */
  predicate FollowsDataclassAt(plan: seq<PlanEntry>, k: nat)
  {
    k < |plan| && k < |Dataclasses.AggregateSlots|
    && plan[k].clientKey == Dataclasses.AggregateSlots[k].0
    && plan[k].component == Dataclasses.AggregateSlots[k].1
    && plan[k].fields == Dataclasses.DataclassNames(Dataclasses.ComponentFields(plan[k].component))
  }

  // One entry at a time: checking all twenty in one proof is beyond the resource limit.
  lemma AsWrittenEntry0() ensures EntryAligned(AsWrittenPlan, 0) && FollowsDataclassAt(AsWrittenPlan, 0) {}
  lemma AsWrittenEntry1() ensures EntryAligned(AsWrittenPlan, 1) && FollowsDataclassAt(AsWrittenPlan, 1) {}
  lemma AsWrittenEntry2() ensures EntryAligned(AsWrittenPlan, 2) && FollowsDataclassAt(AsWrittenPlan, 2) {}
  lemma AsWrittenEntry3() ensures EntryAligned(AsWrittenPlan, 3) && FollowsDataclassAt(AsWrittenPlan, 3) {}
  lemma AsWrittenEntry4() ensures EntryAligned(AsWrittenPlan, 4) && FollowsDataclassAt(AsWrittenPlan, 4) {}
  lemma AsWrittenEntry5() ensures EntryAligned(AsWrittenPlan, 5) && FollowsDataclassAt(AsWrittenPlan, 5) {}
  lemma AsWrittenEntry6() ensures EntryAligned(AsWrittenPlan, 6) && FollowsDataclassAt(AsWrittenPlan, 6) {}
  lemma AsWrittenEntry7() ensures EntryAligned(AsWrittenPlan, 7) && FollowsDataclassAt(AsWrittenPlan, 7) {}
  lemma AsWrittenEntry8() ensures EntryAligned(AsWrittenPlan, 8) && FollowsDataclassAt(AsWrittenPlan, 8) {}
  lemma AsWrittenEntry9() ensures EntryAligned(AsWrittenPlan, 9) && FollowsDataclassAt(AsWrittenPlan, 9) {}
  lemma AsWrittenEntry10() ensures EntryAligned(AsWrittenPlan, 10) && FollowsDataclassAt(AsWrittenPlan, 10) {}
  lemma AsWrittenEntry11() ensures EntryAligned(AsWrittenPlan, 11) && FollowsDataclassAt(AsWrittenPlan, 11) {}
  lemma AsWrittenEntry12() ensures EntryAligned(AsWrittenPlan, 12) && FollowsDataclassAt(AsWrittenPlan, 12) {}
  lemma AsWrittenEntry13() ensures EntryAligned(AsWrittenPlan, 13) && FollowsDataclassAt(AsWrittenPlan, 13) {}
  lemma AsWrittenEntry14() ensures EntryAligned(AsWrittenPlan, 14) && FollowsDataclassAt(AsWrittenPlan, 14) {}
  lemma AsWrittenEntry15() ensures EntryAligned(AsWrittenPlan, 15) && FollowsDataclassAt(AsWrittenPlan, 15) {}
  lemma AsWrittenEntry16() ensures EntryAligned(AsWrittenPlan, 16) && FollowsDataclassAt(AsWrittenPlan, 16) {}
  lemma AsWrittenEntry17() ensures EntryAligned(AsWrittenPlan, 17) && FollowsDataclassAt(AsWrittenPlan, 17) {}
  lemma AsWrittenEntry18() ensures EntryAligned(AsWrittenPlan, 18) && FollowsDataclassAt(AsWrittenPlan, 18) {}
  lemma AsWrittenEntry19() ensures EntryAligned(AsWrittenPlan, 19) && FollowsDataclassAt(AsWrittenPlan, 19) {}

  /**
   * The dict literal has one entry per model, and its keys are the ones
   * `create_fingerprint` looks up, renames included. Its field lists are the
   * dataclasses' fields, not the models': each entry reads the client key of
   * the aggregate's field and lists the fields of that component's dataclass,
   * in the aggregate's order.
   */
  lemma AsWrittenPlanShape()
    ensures |AsWrittenPlan| == 20 == |Dataclasses.AggregateSlots|
    ensures forall k :: 0 <= k < 20 ==> EntryAligned(AsWrittenPlan, k) && FollowsDataclassAt(AsWrittenPlan, k)
  {
    forall k | 0 <= k < 20 ensures EntryAligned(AsWrittenPlan, k) && FollowsDataclassAt(AsWrittenPlan, k) {
      if k == 0 { AsWrittenEntry0(); }
      else if k == 1 { AsWrittenEntry1(); }
      else if k == 2 { AsWrittenEntry2(); }
      else if k == 3 { AsWrittenEntry3(); }
      else if k == 4 { AsWrittenEntry4(); }
      else if k == 5 { AsWrittenEntry5(); }
      else if k == 6 { AsWrittenEntry6(); }
      else if k == 7 { AsWrittenEntry7(); }
      else if k == 8 { AsWrittenEntry8(); }
      else if k == 9 { AsWrittenEntry9(); }
      else if k == 10 { AsWrittenEntry10(); }
      else if k == 11 { AsWrittenEntry11(); }
      else if k == 12 { AsWrittenEntry12(); }
      else if k == 13 { AsWrittenEntry13(); }
      else if k == 14 { AsWrittenEntry14(); }
      else if k == 15 { AsWrittenEntry15(); }
      else if k == 16 { AsWrittenEntry16(); }
      else if k == 17 { AsWrittenEntry17(); }
      else if k == 18 { AsWrittenEntry18(); }
      else { AsWrittenEntry19(); }
    }
  }

  /** Distinct models have distinct slot keys. */
  lemma SlotKeyInjective(c: Component, d: Component)
    requires SlotKey(c) == SlotKey(d)
    ensures c == d
  {
  }

  /** A plan whose entries sit at their models' positions and use their slot keys has distinct entries and fills every slot. */
  lemma AlignedPlanWellFormed(plan: seq<PlanEntry>)
    requires |plan| == 20
    requires forall k :: 0 <= k < 20 ==> EntryAligned(plan, k)
    ensures DistinctEntries(plan) && CoversSlots(plan)
  {
    forall i, j | 0 <= i < j < |plan| ensures plan[i].component != plan[j].component && plan[i].key != plan[j].key {
      assert EntryAligned(plan, i) && EntryAligned(plan, j);
      assert plan[i].key != plan[j].key by {
        if plan[i].key == plan[j].key {
          SlotKeyInjective(plan[i].component, plan[j].component);
        }
      }
    }
    forall c ensures HasSlotEntry(plan, c) {
      var k := PlanIndex(c);
      assert EntryAligned(plan, k);
      PlanIndexInjective(plan[k].component, c);
    }
  }

  lemma PlanIndexInjective(c: Component, d: Component)
    requires PlanIndex(c) == PlanIndex(d)
    ensures c == d
  {
  }

  /** Both dict literals, as written and corrected, have distinct entries and fill every slot. */
  lemma PlansWellFormed()
    ensures DistinctEntries(AsWrittenPlan) && CoversSlots(AsWrittenPlan)
    ensures DistinctEntries(CorrectedPlan) && CoversSlots(CorrectedPlan)
  {
    AsWrittenPlanShape();
    AlignedPlanWellFormed(AsWrittenPlan);
    forall k | 0 <= k < 20 ensures EntryAligned(CorrectedPlan, k) {
      assert EntryAligned(AsWrittenPlan, k);
      if k == 3 {
        assert CorrectedPlan[3] == CorrectedBrowserEntry;
      }
    }
    AlignedPlanWellFormed(CorrectedPlan);
  }

  /** What a successful `create_fingerprint` did: one new row per model and one new `Fingerprint` row linking exactly those rows. */
  predicate FingerprintCreated(s: StoreState, s': StoreState, id: nat, now: int)
  {
    ValidState(s')
    && id !in s.fingerprints && id in s'.fingerprints
    && s'.fingerprints == s.fingerprints[id := s'.fingerprints[id]]
    && s'.fingerprints[id].createdAt == now
    && (forall c :: c in s'.fingerprints[id].links
          && s'.fingerprints[id].links[c] in TableOf(s', c).rows
          && s'.fingerprints[id].links[c] !in TableOf(s, c).rows)
    && (forall c :: Extends(TableOf(s, c), TableOf(s', c)) && |TableOf(s', c).rows| == |TableOf(s, c).rows| + 1)
  }

  /** A built components dict fills every slot of a plan that covers the slots. */
  lemma BuiltFillsSlots(s: StoreState, s': StoreState, plan: seq<PlanEntry>, comps: Components)
    requires CoversSlots(plan) && BuiltEntries(s, s', plan, comps)
    ensures SlotsFilled(comps)
    ensures forall c :: SlotKey(c) in comps && comps[SlotKey(c)].1 in TableOf(s', c).rows
                        && comps[SlotKey(c)].1 !in TableOf(s, c).rows
  {
    forall c ensures SlotKey(c) in comps && comps[SlotKey(c)].0 == c
                     && comps[SlotKey(c)].1 in TableOf(s', c).rows && comps[SlotKey(c)].1 !in TableOf(s, c).rows {
      assert HasSlotEntry(plan, c);
      var k :| 0 <= k < |plan| && plan[k].component == c && plan[k].key == SlotKey(c);
    }
  }

  lemma EveryComponentListed(c: Component)
    ensures c in AllComponents
  {
    SlotsDistinct();
    assert AllComponents[Ordinal(c)] == c;
  }

  /** The links taken from a completed build point at the build's new rows, which nothing links yet. */
  lemma BuiltLinksFresh(s: StoreState, s1: StoreState, plan: seq<PlanEntry>, comps: Components)
    requires ValidState(s) && CoversSlots(plan)
    requires BuildEffect(s, s1, plan, |plan|) && BuiltEntries(s, s1, plan, comps)
    ensures SlotLinks(comps).Ok?
    ensures forall c :: c in SlotLinks(comps).value
    ensures forall c :: SlotLinks(comps).value[c] in TableOf(s1, c).rows && SlotLinks(comps).value[c] !in TableOf(s, c).rows
    ensures forall c :: !Linked(s1, c, SlotLinks(comps).value[c])
  {
    BuiltFillsSlots(s, s1, plan, comps);
    var links := SlotLinks(comps).value;
    forall c ensures c in links {
      EveryComponentListed(c);
    }
  }

  /** The `Fingerprint` row inserted over tables that each gained one row, linking those rows, is a created fingerprint. */
  lemma CreatedFromLinks(s: StoreState, s1: StoreState, s': StoreState, id: nat, now: int, links: map<Component, nat>)
    requires ValidState(s') && s1.fingerprints == s.fingerprints && id !in s.fingerprints
    requires s'.fingerprints == s.fingerprints[id := FingerprintRow(now, links)]
    requires forall c :: TableOf(s', c) == TableOf(s1, c)
    requires forall c :: c in links && links[c] in TableOf(s1, c).rows && links[c] !in TableOf(s, c).rows
    requires forall c :: Extends(TableOf(s, c), TableOf(s1, c)) && |TableOf(s1, c).rows| == |TableOf(s, c).rows| + 1
    ensures FingerprintCreated(s, s', id, now)
  {
  }

  /** Inserting the `Fingerprint` row after a completed build has the effect `FingerprintCreated` describes. */
  lemma LinkEffects(s: StoreState, s1: StoreState, plan: seq<PlanEntry>, comps: Components, now: int)
    requires ValidState(s) && CoversSlots(plan)
    requires BuildEffect(s, s1, plan, |plan|) && BuiltEntries(s, s1, plan, comps)
    ensures SlotLinks(comps).Ok?
    ensures var (s', id) := InsertFingerprint(s1, now, SlotLinks(comps).value);
      FingerprintCreated(s, s', id, now)
  {
    BuiltLinksFresh(s, s1, plan, comps);
    var links := SlotLinks(comps).value;
    InsertFingerprintPreserves(s1, now, links);
    var (s', id) := InsertFingerprint(s1, now, links);
    forall c ensures |TableOf(s1, c).rows| == |TableOf(s, c).rows| + 1 {
      assert HasSlotEntry(plan, c);
      assert plan[..|plan|] == plan;
    }
    CreatedFromLinks(s, s1, s', id, now, links);
  }

  /**
   * `create_fingerprint` on a plan with distinct entries that fills every
   * slot: it fails exactly when the build fails, and then has written only
   * component rows; when it succeeds it has written one row per model and one
   * `Fingerprint` row, stamped `now`, linking those rows and no older ones.
   */
  lemma CreateEffects(s: StoreState, data: Json, plan: seq<PlanEntry>, now: int)
    requires ValidState(s) && DistinctEntries(plan) && CoversSlots(plan)
    ensures CreateResult(s, data, plan, now).result.Ok? <==> BuildResult(s, data, plan).result.Ok?
    ensures CreateResult(s, data, plan, now).result.Err? ==>
      exists n :: 0 <= n <= |plan| && BuildEffect(s, CreateResult(s, data, plan, now).state, plan, n)
    ensures CreateResult(s, data, plan, now).result.Ok? ==>
      FingerprintCreated(s, CreateResult(s, data, plan, now).state, CreateResult(s, data, plan, now).result.value, now)
  {
    var b := BuildResult(s, data, plan);
    BuildEffects(s, data, plan);
    if b.result.Ok? {
      LinkEffects(s, b.state, plan, b.result.value, now);
    }
  }

  /** Constructing from a projected dict fails exactly on the listed names the model lacks, and names each of them. */
  lemma ProjectedUnexpected(model: string, decls: seq<FieldDecl>, ms: seq<(string, Json)>, fs: seq<string>)
    ensures ConstructRow(model, decls, Projected(ms, fs)).Err? <==> exists n :: n in fs && n !in Names(decls)
    ensures ConstructRow(model, decls, Projected(ms, fs)).Err? ==>
      forall n :: n in ConstructRow(model, decls, Projected(ms, fs)).error.names <==> n in fs && n !in Names(decls)
  {
    var kwargs := Projected(ms, fs);
    assert forall n :: n in fs <==> exists i :: 0 <= i < |kwargs| && kwargs[i].0 == n by {
      forall n | n in fs ensures exists i :: 0 <= i < |kwargs| && kwargs[i].0 == n {
        var i :| 0 <= i < |fs| && fs[i] == n;
        assert kwargs[i].0 == n;
      }
    }
  }

  lemma UndeclaredRowFails(model: string, decls: seq<FieldDecl>, ms: seq<(string, Json)>, fs: seq<string>)
    requires exists n :: n in fs && n !in Names(decls)
    ensures CheckedRowOf(model, decls, JObject(ms), Some(fs)).Err?
    ensures var e := CheckedRowOf(model, decls, JObject(ms), Some(fs)).error;
      e.UnexpectedKeywords? && e.model == model
      && forall n :: n in e.names <==> n in fs && n !in Names(decls)
  {
    ProjectedUnexpected(model, decls, ms, fs);
    assert Project(model, JObject(ms), Some(fs)) == Ok(Projected(ms, fs));
  }

  /**
   * A listed name the model does not declare makes `create_fingerprint_model`
   * fail, whatever the dict holds, with the `TypeError` naming every such name.
   */
  lemma UndeclaredReported(c: Component, ms: seq<(string, Json)>, fs: seq<string>)
    requires exists n :: n in fs && n !in FieldNames(c)
    ensures CheckedRow(c, JObject(ms), Some(fs)).Err?
    ensures var e := CheckedRow(c, JObject(ms), Some(fs)).error;
      e.UnexpectedKeywords? && e.model == ModelName(c)
      && forall n :: n in e.names <==> n in fs && n !in FieldNames(c)
  {
    UndeclaredRowFails(ModelName(c), Fields(c), ms, fs);
  }

  /** Projecting onto a field list that repeats no name gives a dict whose keys are that list. */
  lemma ProjectedKeys(ms: seq<(string, Json)>, fs: seq<string>)
    requires forall i, j :: 0 <= i < j < |fs| ==> fs[i] != fs[j]
    ensures Keys(Projected(ms, fs)) == fs
  {
    KeysOfDistinct(Projected(ms, fs));
  }

  /**
   * With a field list that repeats no name, the `TypeError` lists the
   * undeclared names in the order the list gives them.
   */
  lemma UndeclaredRowInListOrder(model: string, decls: seq<FieldDecl>, ms: seq<(string, Json)>, fs: seq<string>)
    requires exists n :: n in fs && n !in Names(decls)
    requires forall i, j :: 0 <= i < j < |fs| ==> fs[i] != fs[j]
    ensures CheckedRowOf(model, decls, JObject(ms), Some(fs)).Err?
    ensures IsSubsequence(CheckedRowOf(model, decls, JObject(ms), Some(fs)).error.names, fs)
  {
    ProjectedUnexpected(model, decls, ms, fs);
    ProjectedKeys(ms, fs);
    assert Project(model, JObject(ms), Some(fs)) == Ok(Projected(ms, fs));
  }

  /** The names the as-written browser entry shares with no field of the `Browser` model are `vendor` and `product_sub`. */
  lemma BrowserUndeclared()
    ensures forall n :: (n in AsWrittenBrowserFields && n !in FieldNames(Browser)) <==> n == "vendor" || n == "product_sub"
  {
    assert FieldNames(Browser) == ["browser", "engine", "build_id", "private_mode"];
  }

  /** The as-written browser fields repeat no name and list `vendor` before `product_sub`. */
  lemma BrowserFieldsOrder()
    ensures forall i, j :: 0 <= i < j < |AsWrittenBrowserFields| ==> AsWrittenBrowserFields[i] != AsWrittenBrowserFields[j]
    ensures IsSubsequence(["vendor", "product_sub"], AsWrittenBrowserFields)
  {
    var fs := AsWrittenBrowserFields;
    var expected := ["vendor", "product_sub"];
    assert fs[1..][1..] == ["build_id", "private_mode"];
    assert expected[1..][1..] == [];
  }

  /**
   * The as-written browser entry lists `vendor` and `product_sub`, which the
   * `Browser` model does not declare: on any dict, `Browser(**kwargs)` raises
   * a `TypeError`.
   */
  lemma AsWrittenBrowserError(ms: seq<(string, Json)>)
    ensures CheckedRow(Browser, JObject(ms), Some(AsWrittenBrowserFields)).Err?
    ensures var e := CheckedRow(Browser, JObject(ms), Some(AsWrittenBrowserFields)).error;
      e.UnexpectedKeywords? && e.model == "Browser"
  {
    assert "vendor" in AsWrittenBrowserFields && "vendor" !in FieldNames(Browser);
    UndeclaredReported(Browser, ms, AsWrittenBrowserFields);
  }

  /**
   * The `TypeError` of the as-written browser entry names exactly `vendor` and
   * `product_sub`, in that order: its message is
   * `Browser() got unexpected keyword arguments: 'vendor', 'product_sub'`.
   */
  lemma AsWrittenBrowserErrorNames(ms: seq<(string, Json)>)
    ensures CheckedRow(Browser, JObject(ms), Some(AsWrittenBrowserFields)).Err?
    ensures var e := CheckedRow(Browser, JObject(ms), Some(AsWrittenBrowserFields)).error;
      e.UnexpectedKeywords? && forall n :: n in e.names <==> n == "vendor" || n == "product_sub"
    ensures CheckedRow(Browser, JObject(ms), Some(AsWrittenBrowserFields)).error.names == ["vendor", "product_sub"]
  {
    var fs := AsWrittenBrowserFields;
    BrowserUndeclared();
    assert "vendor" in fs && "vendor" !in FieldNames(Browser);
    UndeclaredReported(Browser, ms, fs);
    BrowserFieldsOrder();
    UndeclaredRowInListOrder(ModelName(Browser), Fields(Browser), ms, fs);
    var e := CheckedRow(Browser, JObject(ms), Some(fs)).error;
    SubsequenceBySet(e.names, ["vendor", "product_sub"], fs);
  }

  /** An entry that fails on every dict it can be given makes the whole build fail. */
  lemma {:induction false} EntryAlwaysFailing(s: StoreState, data: Json, plan: seq<PlanEntry>, k: nat)
    requires k < |plan| && plan[k].fields != []
    requires forall ms :: CheckedRow(plan[k].component, JObject(ms), Some(plan[k].fields)).Err?
    ensures BuildResult(s, data, plan).result.Err?
  {
    PrefixStep(s, data, plan, k);
    StepAlwaysFailing(BuildResult(s, data, plan[..k]), data, plan[k]);
    ErrorSticky(s, data, plan, k + 1);
  }

  /** The build over the first `k + 1` entries is one step after the build over the first `k`. */
  lemma PrefixStep(s: StoreState, data: Json, plan: seq<PlanEntry>, k: nat)
    requires k < |plan|
    ensures BuildResult(s, data, plan[..k + 1]) == BuildStep(BuildResult(s, data, plan[..k]), data, plan[k])
  {
    assert plan[..k + 1][..k] == plan[..k];
  }

  /** A step whose entry fails on every dict fails. */
  lemma StepAlwaysFailing(prev: Outcome<Components>, data: Json, e: PlanEntry)
    requires e.fields != []
    requires forall ms :: CheckedRow(e.component, JObject(ms), Some(e.fields)).Err?
    ensures BuildStep(prev, data, e).result.Err?
  {
    if prev.result.Ok? && data.JObject? {
      var part := GetOr(data.members, e.clientKey, JObject([]));
      if part.JObject? {
        assert CheckedRow(e.component, JObject(part.members), Some(e.fields)).Err?;
      }
    }
  }

  /** Whatever the client sends, the as-written browser entry fails and saves nothing. */
  lemma BrowserEntryAlwaysFails(s: StoreState, d: Json)
    ensures CreateModelResult(s, Browser, d, Some(AsWrittenBrowserFields)).result.Err?
    ensures CreateModelResult(s, Browser, d, Some(AsWrittenBrowserFields)).state == s
  {
    if d.JObject? {
      AsWrittenBrowserError(d.members);
    }
  }

  /**
   * `build_fingerprint_components` as written never succeeds: if nothing
   * fails earlier, the browser entry does, after the ip, audio and behavioral
   * rows are saved.
   */
  lemma AsWrittenBuildFails(s: StoreState, data: Json)
    ensures BuildResult(s, data, AsWrittenPlan).result.Err?
  {
    assert AsWrittenPlan[3] == PlanEntry("browser", Browser, "browser", AsWrittenBrowserFields);
    forall ms ensures CheckedRow(Browser, JObject(ms), Some(AsWrittenBrowserFields)).Err? {
      AsWrittenBrowserError(ms);
    }
    EntryAlwaysFailing(s, data, AsWrittenPlan, 3);
  }

  /**
   * A row whose first declared field is a float field, listed first and sent
   * an int beyond the double range, fails `full_clean` with that field's
   * `OverflowError`, whatever else the part holds.
   */
  lemma FirstFieldOverflow(model: string, decls: seq<FieldDecl>, ms: seq<(string, Json)>, fs: seq<string>, n: int)
    requires decls != [] && decls[0].kind == FloatField
    requires fs != [] && fs[0] == decls[0].name && forall f :: f in fs ==> f in Names(decls)
    requires GetOr(ms, fs[0], JNull) == JInt(n) && !InDoubleRange(n)
    ensures CheckedRowOf(model, decls, JObject(ms), Some(fs)) == Err(FloatOverflow(decls[0].name))
  {
    var kwargs := Projected(ms, fs);
    assert Project(model, JObject(ms), Some(fs)) == Ok(kwargs);
    ProjectedUnexpected(model, decls, ms, fs);
    var row := ConstructRow(model, decls, kwargs).value;
    LookupUniform(kwargs, fs[0], JInt(n), 0);
    assert row[0] == JInt(n);
    assert FirstRaising(decls, row, 0) == Some(0);
  }

  /**
   * An int beyond the double range sent as `typing_speed` makes the behavioral
   * entry raise `OverflowError` from `full_clean`, whatever else the part holds:
   * `typing_speed` is the first field `clean_fields` reaches.
   */
  lemma TypingSpeedOverflow(ms: seq<(string, Json)>, n: int)
    requires GetOr(ms, "typing_speed", JNull) == JInt(n) && !InDoubleRange(n)
    ensures CheckedRow(Behavioral, JObject(ms), Some(BehavioralEntryFields)) == Err(FloatOverflow("typing_speed"))
  {
    assert Names(BehavioralFields) == BehavioralEntryFields;
    FirstFieldOverflow("Behavioral", BehavioralFields, ms, BehavioralEntryFields, n);
  }

  /** An entry that fails on the part the document gives it makes the build fail. */
  lemma {:induction false} EntryFailing(s: StoreState, data: Json, plan: seq<PlanEntry>, k: nat)
    requires k < |plan| && data.JObject?
    requires CheckedRow(plan[k].component, GetOr(data.members, plan[k].clientKey, JObject([])), Some(plan[k].fields)).Err?
    ensures BuildResult(s, data, plan).result.Err?
  {
    PrefixStep(s, data, plan, k);
    ErrorSticky(s, data, plan, k + 1);
  }

  /** Built from an empty dict, each declared field is `None` when listed and its default when not. */
  lemma EmptyPartRow(model: string, decls: seq<FieldDecl>, fs: seq<string>)
    requires forall n :: n in fs ==> n in Names(decls)
    ensures ConstructRow(model, decls, Projected([], fs)).Ok?
    ensures forall i :: 0 <= i < |decls| ==>
              (ConstructRow(model, decls, Projected([], fs)).value[i]
               == if decls[i].name in fs then JNull else FieldDefault(decls[i].kind))
  {
    var kwargs := Projected([], fs);
    ProjectedUnexpected(model, decls, [], fs);
    forall i | 0 <= i < |decls|
      ensures ConstructRow(model, decls, kwargs).value[i] == (if decls[i].name in fs then JNull else FieldDefault(decls[i].kind))
    {
      if decls[i].name in fs {
        ListedButMissingRow(model, decls, [], fs, i);
      }
    }
  }

  lemma EmptyRowStored(model: string, decls: seq<FieldDecl>, fs: seq<string>)
    requires forall n :: n in fs ==> n in Names(decls)
    ensures CheckedRowOf(model, decls, JObject([]), Some(fs)).Ok?
    ensures forall i :: 0 <= i < |decls| ==>
              (CheckedRowOf(model, decls, JObject([]), Some(fs)).value[i]
               == if decls[i].name in fs then JNull else FieldDefault(decls[i].kind))
  {
    EmptyPartRow(model, decls, fs);
    var row := ConstructRow(model, decls, Projected([], fs)).value;
    DefaultsStorable(decls, row);
    assert Project(model, JObject([]), Some(fs)) == Ok(Projected([], fs));
  }

  /**
   * A component the client left out (`data.get(key, {})` gives `{}`) is saved
   * as long as the entry lists only declared fields: `None`s and defaults pass
   * `full_clean` and `save`.
   */
  lemma EmptyPartStored(c: Component, fs: seq<string>)
    requires forall n :: n in fs ==> n in FieldNames(c)
    ensures CheckedRow(c, JObject([]), Some(fs)).Ok?
    ensures forall i :: 0 <= i < |Fields(c)| ==>
              (CheckedRow(c, JObject([]), Some(fs)).value[i]
               == if Fields(c)[i].name in fs then JNull else FieldDefault(Fields(c)[i].kind))
  {
    EmptyRowStored(ModelName(c), Fields(c), fs);
  }

  /** `None`s and field defaults pass `full_clean` and `save`. */
  lemma DefaultsStorable(decls: seq<FieldDecl>, row: Row)
    requires |row| == |decls|
    requires forall i :: 0 <= i < |decls| ==> row[i] == JNull || row[i] == FieldDefault(decls[i].kind)
    ensures forall i :: 0 <= i < |decls| ==> FieldAccepts(decls[i].kind, row[i]) && !SaveRejects(decls[i].kind, row[i])
  {
  }

  /** Every entry lists only fields its model declares. */
  predicate ListsDeclaredFields(plan: seq<PlanEntry>)
  {
    forall k, n :: 0 <= k < |plan| && n in plan[k].fields ==> n in FieldNames(plan[k].component)
  }

  /** A plan that lists only declared fields builds every component from a document that has none of them. */
  lemma {:induction false} DeclaredPlanBuildsEmpty(s: StoreState, plan: seq<PlanEntry>)
    requires ListsDeclaredFields(plan)
    ensures BuildResult(s, JObject([]), plan).result.Ok?
    decreases |plan|
  {
    if plan != [] {
      var init := plan[..|plan| - 1];
      var e := plan[|plan| - 1];
      assert ListsDeclaredFields(init) by {
        assert forall k :: 0 <= k < |init| ==> init[k] == plan[k];
      }
      DeclaredPlanBuildsEmpty(s, init);
      var prev := BuildResult(s, JObject([]), init);
      assert ClientPart(JObject([]), e.clientKey) == Ok(JObject([]));
      EmptyPartStored(e.component, e.fields);
    }
  }

  /** Entry `k` lists the leading fields of its model, in declaration order. */
  predicate ListsLeadingFields(plan: seq<PlanEntry>, k: nat)
  {
    k < |plan| && |plan[k].fields| <= |Fields(plan[k].component)|
    && forall i :: 0 <= i < |plan[k].fields| ==> plan[k].fields[i] == Fields(plan[k].component)[i].name
  }

  /** A plan whose every entry lists leading fields lists only declared fields. */
  lemma LeadingFieldsDeclared(plan: seq<PlanEntry>)
    requires forall k :: 0 <= k < |plan| ==> ListsLeadingFields(plan, k)
    ensures ListsDeclaredFields(plan)
  {
    forall k, n | 0 <= k < |plan| && n in plan[k].fields ensures n in FieldNames(plan[k].component) {
      assert ListsLeadingFields(plan, k);
      var i :| 0 <= i < |plan[k].fields| && plan[k].fields[i] == n;
      assert FieldNames(plan[k].component)[i] == n;
    }
  }

  // One entry at a time: checking all twenty in one proof is beyond the resource limit.
  lemma CorrectedLeading0() ensures ListsLeadingFields(CorrectedPlan, 0) {}
  lemma CorrectedLeading1() ensures ListsLeadingFields(CorrectedPlan, 1) {}
  lemma CorrectedLeading2() ensures ListsLeadingFields(CorrectedPlan, 2) {}
  lemma CorrectedLeading3() ensures ListsLeadingFields(CorrectedPlan, 3) { assert CorrectedPlan[3] == CorrectedBrowserEntry; }
  lemma CorrectedLeading4() ensures ListsLeadingFields(CorrectedPlan, 4) {}
  lemma CorrectedLeading5() ensures ListsLeadingFields(CorrectedPlan, 5) {}
  lemma CorrectedLeading6() ensures ListsLeadingFields(CorrectedPlan, 6) {}
  lemma CorrectedLeading7() ensures ListsLeadingFields(CorrectedPlan, 7) {}
  lemma CorrectedLeading8() ensures ListsLeadingFields(CorrectedPlan, 8) {}
  lemma CorrectedLeading9() ensures ListsLeadingFields(CorrectedPlan, 9) {}
  lemma CorrectedLeading10() ensures ListsLeadingFields(CorrectedPlan, 10) {}
  lemma CorrectedLeading11() ensures ListsLeadingFields(CorrectedPlan, 11) {}
  lemma CorrectedLeading12() ensures ListsLeadingFields(CorrectedPlan, 12) {}
  lemma CorrectedLeading13() ensures ListsLeadingFields(CorrectedPlan, 13) {}
  lemma CorrectedLeading14() ensures ListsLeadingFields(CorrectedPlan, 14) {}
  lemma CorrectedLeading15() ensures ListsLeadingFields(CorrectedPlan, 15) {}
  lemma CorrectedLeading16() ensures ListsLeadingFields(CorrectedPlan, 16) {}
  lemma CorrectedLeading17() ensures ListsLeadingFields(CorrectedPlan, 17) {}
  lemma CorrectedLeading18() ensures ListsLeadingFields(CorrectedPlan, 18) {}
  lemma CorrectedLeading19() ensures ListsLeadingFields(CorrectedPlan, 19) {}

  /**
   * Each entry of the corrected plan lists its model's leading fields, so only
   * declared ones; the plan differs from the as-written one in the browser
   * entry alone.
   */
  lemma CorrectedFieldsDeclared()
    ensures forall k :: 0 <= k < |CorrectedPlan| ==> ListsLeadingFields(CorrectedPlan, k)
    ensures ListsDeclaredFields(CorrectedPlan)
    ensures |CorrectedPlan| == |AsWrittenPlan|
    ensures forall k :: 0 <= k < |AsWrittenPlan| && k != 3 ==> AsWrittenPlan[k] == CorrectedPlan[k]
  {
    forall k | 0 <= k < 20 ensures ListsLeadingFields(CorrectedPlan, k) {
      if k == 0 { CorrectedLeading0(); }
      else if k == 1 { CorrectedLeading1(); }
      else if k == 2 { CorrectedLeading2(); }
      else if k == 3 { CorrectedLeading3(); }
      else if k == 4 { CorrectedLeading4(); }
      else if k == 5 { CorrectedLeading5(); }
      else if k == 6 { CorrectedLeading6(); }
      else if k == 7 { CorrectedLeading7(); }
      else if k == 8 { CorrectedLeading8(); }
      else if k == 9 { CorrectedLeading9(); }
      else if k == 10 { CorrectedLeading10(); }
      else if k == 11 { CorrectedLeading11(); }
      else if k == 12 { CorrectedLeading12(); }
      else if k == 13 { CorrectedLeading13(); }
      else if k == 14 { CorrectedLeading14(); }
      else if k == 15 { CorrectedLeading15(); }
      else if k == 16 { CorrectedLeading16(); }
      else if k == 17 { CorrectedLeading17(); }
      else if k == 18 { CorrectedLeading18(); }
      else { CorrectedLeading19(); }
    }
    assert |CorrectedPlan| == 20;
    LeadingFieldsDeclared(CorrectedPlan);
  }

  /**
   * The corrected plan on the document `{}`: every component is saved with
   * `None`s and defaults, and one `Fingerprint` row links the twenty new rows.
   */
  lemma CorrectedEmptyDocumentCreates(s: StoreState, now: int)
    requires ValidState(s)
    ensures CreateResult(s, JObject([]), CorrectedPlan, now).result.Ok?
    ensures FingerprintCreated(s, CreateResult(s, JObject([]), CorrectedPlan, now).state,
                               CreateResult(s, JObject([]), CorrectedPlan, now).result.value, now)
  {
    CorrectedFieldsDeclared();
    DeclaredPlanBuildsEmpty(s, CorrectedPlan);
    PlansWellFormed();
    CreateEffects(s, JObject([]), CorrectedPlan, now);
  }

  /** `create_fingerprint` as written fails on every document, having written only component rows. */
  lemma AsWrittenCreateFails(s: StoreState, data: Json, now: int)
    requires ValidState(s)
    ensures CreateResult(s, data, AsWrittenPlan, now).result.Err?
    ensures exists n :: 0 <= n <= |AsWrittenPlan| && BuildEffect(s, CreateResult(s, data, AsWrittenPlan, now).state, AsWrittenPlan, n)
  {
    AsWrittenBuildFails(s, data);
    PlansWellFormed();
    CreateEffects(s, data, AsWrittenPlan, now);
  }

  /**
   * The http_header entry does not list `referer`, so the saved row's
   * `referer` is always `None`, whatever the client sends.
   */
  lemma RefererNeverStored(d: Json)
    requires CheckedRow(HttpHeaderFingerprint, d, Some(HttpHeaderEntryFields)).Ok?
    ensures Fields(HttpHeaderFingerprint)[6].name == "referer"
    ensures CheckedRow(HttpHeaderFingerprint, d, Some(HttpHeaderEntryFields)).value[6] == JNull
  {
    assert Fields(HttpHeaderFingerprint) == HttpHeaderFingerprintFields;
    assert ModelName(HttpHeaderFingerprint) == "HttpHeaderFingerprint";
    RefererUnlisted();
    UnlistedRowDefault("HttpHeaderFingerprint", HttpHeaderFingerprintFields, d, HttpHeaderEntryFields, 6);
  }

  lemma RefererUnlisted()
    ensures HttpHeaderFingerprintFields[6].name == "referer" && "referer" !in HttpHeaderEntryFields
  {
  }

  /** The http_header entry is the one with the field list `RefererNeverStored` is about. */
  lemma HttpHeaderEntry()
    ensures AsWrittenPlan[10].component == HttpHeaderFingerprint && AsWrittenPlan[10].fields == HttpHeaderEntryFields
    ensures CorrectedPlan[10] == AsWrittenPlan[10]
  {
  }

  /**
   * `create_fingerprint_model` on a live database: the instance is built and
   * checked, and saved only when `full_clean` and the save-time conversion
   * accept it.
   */
  method CreateFingerprintModel(store: Store, c: Component, data: Json, fields: Option<seq<string>>)
    returns (r: Result<nat, Failure>)
    modifies store
    ensures Outcome(r, store.State()) == CreateModelResult(old(store.State()), c, data, fields)
  {
    var row := CheckedRow(c, data, fields);
    if row.Err? {
      r := Err(row.error);
    } else {
      var id := store.Insert(c, row.value);
      r := Ok(id);
    }
  }

  /**
   * `build_fingerprint_components(data)`: the dict literal's entries evaluated
   * in order; the first exception ends the evaluation, leaving the rows the
   * earlier entries saved.
   */
  method BuildFingerprintComponents(store: Store, data: Json, plan: seq<PlanEntry>)
    returns (r: Result<Components, Failure>)
    modifies store
    ensures Outcome(r, store.State()) == BuildResult(old(store.State()), data, plan)
  {
    var comps: Components := map[];
    var i := 0;
    while i < |plan|
      invariant 0 <= i <= |plan|
      invariant BuildResult(old(store.State()), data, plan[..i]) == Outcome(Ok(comps), store.State())
    {
      var e := plan[i];
      assert plan[..i + 1][..i] == plan[..i];
      var part := ClientPart(data, e.clientKey);
      if part.Err? {
        ErrorSticky(old(store.State()), data, plan, i + 1);
        return Err(part.error);
      }
      var m := CreateFingerprintModel(store, e.component, part.value, Some(e.fields));
      if m.Err? {
        ErrorSticky(old(store.State()), data, plan, i + 1);
        return Err(m.error);
      }
      comps := comps[e.key := (e.component, m.value)];
      i := i + 1;
    }
    assert plan[..i] == plan;
    r := Ok(comps);
  }

  /**
   * `create_fingerprint(data)`: the components, then `Fingerprint.objects.create`
   * with one keyword per slot, each read from the components dict.
   */
  method CreateFingerprint(store: Store, data: Json, plan: seq<PlanEntry>, now: int)
    returns (r: Result<nat, Failure>)
    modifies store
    ensures Outcome(r, store.State()) == CreateResult(old(store.State()), data, plan, now)
  {
    var built := BuildFingerprintComponents(store, data, plan);
    if built.Err? {
      return Err(built.error);
    }
    var links := SlotLinks(built.value);
    if links.Err? {
      return Err(links.error);
    }
    var id := store.InsertParent(now, links.value);
    r := Ok(id);
  }

  /** The rows a `Fingerprint` row links are all in the database. */
  predicate LinksStored(s: StoreState, fp: FingerprintRow)
  {
    forall c :: c in fp.links ==> fp.links[c] in TableOf(s, c).rows
  }

  /** `model_to_dict(obj)` for a component row: its `id`, then each declared field with its value. */
  function RowDict(c: Component, id: nat, row: Row): Json
    requires |row| == |Fields(c)|
  {
    JObject([("id", JInt(id))] + seq(|row|, j requires 0 <= j < |row| => (Fields(c)[j].name, row[j])))
  }

  /** What the related-slot loop stores under slot `c`: the linked row's dict, or `None` for an empty slot. */
  function SlotDict(s: StoreState, fp: FingerprintRow, c: Component): Json
    requires ValidState(s) && LinksStored(s, fp)
  {
    if c in fp.links then
      var id := fp.links[c];
      WidthIsFieldCount(c);
      RowDict(c, id, TableOf(s, c).rows[id])
    else JNull
  }

  /** `model_to_dict(fingerprint)` keeps a slot as the linked row's primary key, or `None`. */
  function LinkValue(fp: FingerprintRow, c: Component): Json
  {
    if c in fp.links then JInt(fp.links[c]) else JNull
  }

  /**
   * The dict the fetch builds after its loop has replaced the first `n` slots:
   * `id` (but not the non-editable `created_at`), then the twenty slots in
   * field order.
   */
  function Dumped(s: StoreState, fid: nat, fp: FingerprintRow, n: nat): (members: seq<(string, Json)>)
    requires ValidState(s) && LinksStored(s, fp) && n <= |AllComponents|
    ensures |members| == |AllComponents| + 1
  {
    [("id", JInt(fid))]
    + seq(|AllComponents|, j requires 0 <= j < |AllComponents| =>
          (SlotName(AllComponents[j]), if j < n then SlotDict(s, fp, AllComponents[j]) else LinkValue(fp, AllComponents[j])))
  }

  /** The document `fetch_full_fingerprint` prints for fingerprint `fid`. */
  function FullDump(s: StoreState, fid: nat): Json
    requires ValidState(s) && fid in s.fingerprints
  {
    JObject(Dumped(s, fid, s.fingerprints[fid], |AllComponents|))
  }

  /** No slot is called `id`. */
  lemma SlotNotId(c: Component)
    ensures SlotName(c) != "id"
  {
  }

  /** The keys of the fetched dict: `id`, then the slot names, all distinct. */
  lemma DumpedKeysDistinct(s: StoreState, fid: nat, fp: FingerprintRow, n: nat)
    requires ValidState(s) && LinksStored(s, fp) && n <= |AllComponents|
    ensures Dumped(s, fid, fp, n)[0].0 == "id"
    ensures forall j :: 0 <= j < |AllComponents| ==> Dumped(s, fid, fp, n)[j + 1].0 == SlotName(AllComponents[j])
    ensures forall a, b :: 0 <= a < b < |AllComponents| + 1 ==> Dumped(s, fid, fp, n)[a].0 != Dumped(s, fid, fp, n)[b].0
  {
    SlotsDistinct();
    var d := Dumped(s, fid, fp, n);
    forall a, b | 0 <= a < b < |AllComponents| + 1 ensures d[a].0 != d[b].0 {
      SlotNotId(AllComponents[b - 1]);
    }
  }

  /** Filling slot `n` changes member `n + 1` of the document and nothing else. */
  lemma DumpedNext(s: StoreState, fid: nat, fp: FingerprintRow, n: nat)
    requires ValidState(s) && LinksStored(s, fp) && n < |AllComponents|
    ensures Dumped(s, fid, fp, n + 1)
            == Dumped(s, fid, fp, n)[n + 1 := (SlotName(AllComponents[n]), SlotDict(s, fp, AllComponents[n]))]
  {
    var d, e := Dumped(s, fid, fp, n), Dumped(s, fid, fp, n + 1);
    var d' := d[n + 1 := (SlotName(AllComponents[n]), SlotDict(s, fp, AllComponents[n]))];
    forall j | 0 <= j < |e| ensures e[j] == d'[j] {
      if j > 0 && j != n + 1 {
        assert e[j] == d[j];
      }
    }
  }

  /** One pass of the related-slot loop: `result[field] = ...` replaces slot `n` in place. */
  lemma DumpStep(s: StoreState, fid: nat, fp: FingerprintRow, n: nat)
    requires ValidState(s) && LinksStored(s, fp) && n < |AllComponents|
    ensures SetItem(Dumped(s, fid, fp, n), SlotName(AllComponents[n]), SlotDict(s, fp, AllComponents[n]))
            == Dumped(s, fid, fp, n + 1)
  {
    DumpedKeysDistinct(s, fid, fp, n);
    DumpedNext(s, fid, fp, n);
    SetItemAt(Dumped(s, fid, fp, n), n + 1, SlotDict(s, fp, AllComponents[n]));
  }

  /**
   * `fetch_full_fingerprint(fingerprint_id)`: `None` when no such row exists;
   * otherwise the row, and the printed document in which every slot holds the
   * linked row's dict (or `None` for an empty slot).
   */
  method FetchFullFingerprint(store: Store, fid: nat) returns (found: Option<FingerprintRow>, shown: Option<Json>)
    requires store.Valid()
    ensures fid !in store.fingerprints ==> found.None? && shown.None?
    ensures fid in store.fingerprints ==> found == Some(store.fingerprints[fid]) && shown == Some(FullDump(store.State(), fid))
  {
    if fid !in store.fingerprints {
      return None, None;
    }
    var s := store.State();
    var fp := store.fingerprints[fid];
    assert LinksStored(s, fp);
    var result := [("id", JInt(fid))] + seq(|AllComponents|, j requires 0 <= j < |AllComponents| =>
                                               (SlotName(AllComponents[j]), LinkValue(fp, AllComponents[j])));
    assert result == Dumped(s, fid, fp, 0);
    var i := 0;
    while i < |AllComponents|
      invariant 0 <= i <= |AllComponents|
      invariant result == Dumped(s, fid, fp, i)
    {
      var c := AllComponents[i];
      DumpStep(s, fid, fp, i);
      result := SetItem(result, SlotName(c), SlotDict(s, fp, c));
      i := i + 1;
    }
    found := Some(fp);
    shown := Some(JObject(result));
  }

  /**
   * The printed document is a dict with `id` and one entry per slot, and the
   * entry for a slot is the linked row's dict, or `None` when nothing is linked.
   */
  lemma FullDumpLookup(s: StoreState, fid: nat, c: Component)
    requires ValidState(s) && fid in s.fingerprints
    ensures Lookup(FullDump(s, fid).members, "id") == Some(JInt(fid))
    ensures Lookup(FullDump(s, fid).members, SlotName(c)) == Some(SlotDict(s, s.fingerprints[fid], c))
  {
    var fp := s.fingerprints[fid];
    var d := Dumped(s, fid, fp, |AllComponents|);
    DumpedKeysDistinct(s, fid, fp, |AllComponents|);
    LookupDistinct(d, 0);
    SlotsDistinct();
    var j := Ordinal(c);
    LookupDistinct(d, j + 1);
  }

  /**
   * Fetching a fingerprint just created shows every slot filled: each holds the
   * dict of a row this creation inserted, keyed by that row's own `id`.
   */
  lemma FetchAfterCreate(s: StoreState, s': StoreState, id: nat, now: int, c: Component)
    requires FingerprintCreated(s, s', id, now)
    ensures c in s'.fingerprints[id].links
    ensures var link := s'.fingerprints[id].links[c];
      link !in TableOf(s, c).rows
      && Lookup(FullDump(s', id).members, SlotName(c)) == Some(RowDict(c, link, TableOf(s', c).rows[link]))
  {
    FullDumpLookup(s', id, c);
    WidthIsFieldCount(c);
  }

  /**
   * An incoming request: its HTTP method, the length its `CONTENT_LENGTH`
   * header declares (0 when absent), and its raw body, as bytes.
   */
  datatype Request = Request(httpMethod: string, contentLength: nat, body: seq<bv8>)

  /** Django's default `DATA_UPLOAD_MAX_MEMORY_SIZE`, 2.5 MiB; the setting `None` turns the check off. */
  const DefaultMaxUpload: Option<nat> := Some(2621440)

  /**
   * Reading `request.body` raises `RequestDataTooBig` when the declared length
   * is above the `DATA_UPLOAD_MAX_MEMORY_SIZE` setting `maxUpload`.
   */
  predicate BodyTooLarge(request: Request, maxUpload: Option<nat>)
  {
    maxUpload.Some? && request.contentLength > maxUpload.value
  }

  /** The exceptions `create_fingerprint_instance` lets escape. */
  datatype InstanceError =
      /** `RequestDataTooBig` from reading `request.body`. */
    | DataTooBig
      /** `json.JSONDecodeError` from `json.loads(request.body)`. */
    | InvalidJson
      /** Another exception from `json.loads`: undecodable bytes or nesting too deep. */
    | LoadFailed
      /** An exception from `from_dict`, with its text. */
    | FromDictFailed(message: string)

  /**
   * `create_fingerprint_instance(request)`: only a POST is read, decoded and
   * handed to `from_dict`; any other method yields `None`. Nothing is caught,
   * so the `RequestDataTooBig` of an oversized body and each exception of
   * `json.loads` (`decode`) and of dacite's `from_dict` (`fromDict`) reach the
   * caller.
   */
  function CreateFingerprintInstance<T>(request: Request, maxUpload: Option<nat>, decode: seq<bv8> -> Loaded,
                                        fromDict: Json -> Result<T, string>): (r: Result<Option<T>, InstanceError>)
    ensures request.httpMethod != "POST" ==> r == Ok(None)
    ensures request.httpMethod == "POST" ==> (r == Err(DataTooBig) <==> BodyTooLarge(request, maxUpload))
    ensures request.httpMethod == "POST" ==>
      (r == Err(InvalidJson) <==> !BodyTooLarge(request, maxUpload) && decode(request.body).DecodeError?)
    ensures request.httpMethod == "POST" ==>
      (r == Err(LoadFailed) <==> !BodyTooLarge(request, maxUpload) && decode(request.body).OtherError?)
    ensures request.httpMethod == "POST" && !BodyTooLarge(request, maxUpload) && decode(request.body).Parsed? ==>
      match fromDict(decode(request.body).value)
      case Ok(v) => r == Ok(Some(v))
      case Err(m) => r == Err(FromDictFailed(m))
  {
    if request.httpMethod != "POST" then Ok(None)
    else if BodyTooLarge(request, maxUpload) then Err(DataTooBig)
    else
      match decode(request.body)
      case DecodeError => Err(InvalidJson)
      case OtherError => Err(LoadFailed)
      case Parsed(data) =>
        match fromDict(data)
        case Ok(v) => Ok(Some(v))
        case Err(m) => Err(FromDictFailed(m))
  }

  /** The guard comes first: a request other than POST is answered without looking at its length or body. */
  lemma InstanceIgnoresBodyUnlessPost<T>(request: Request, length: nat, body: seq<bv8>, maxUpload: Option<nat>,
                                         decode: seq<bv8> -> Loaded, fromDict: Json -> Result<T, string>)
    requires request.httpMethod != "POST"
    ensures CreateFingerprintInstance(request, maxUpload, decode, fromDict)
            == CreateFingerprintInstance(request.(contentLength := length, body := body), maxUpload, decode, fromDict)
    ensures CreateFingerprintInstance(request, maxUpload, decode, fromDict) == Ok(None)
  {
  }
}
