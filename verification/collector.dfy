/**
 * The value-shaping rules of the two client collectors (the page script and
 * the stand-alone script): the hex step after SHA-256, the colour-gamut
 * choice, the CDM and codec probes, the `||` defaults for missing browser
 * values, and the `network_timing` reduction. Browser APIs are parameters:
 * each probe's outcome is given, not computed.
 */
module Collector {
  import opened Wrappers
  import opened Text
  import opened JsonData

  // ---------------------------------------------------------------- hex step

  /** An element of the `Uint8Array` the digest returns. */
  newtype Byte = b: int | 0 <= b < 256

  predicate IsLowerHexDigit(c: char)
  {
    IsDigit(c) || 'a' <= c <= 'f'
  }

  /** The digit for `n` in base 16, as `Number.prototype.toString(16)` writes it. */
  function HexDigit(n: nat): (c: char)
    requires n < 16
    ensures IsLowerHexDigit(c)
  {
    if n < 10 then ('0' as int + n) as char else ('a' as int + n - 10) as char
  }

  /** `b.toString(16)`: base-16 digits without leading zeros. */
  function ToBase16(b: Byte): string
  {
    if b < 16 then [HexDigit(b as nat)] else [HexDigit(b as nat / 16), HexDigit(b as nat % 16)]
  }

  /** `s.padStart(2, '0')`. */
  function PadStart2(s: string): string
  {
    if |s| >= 2 then s else seq(2 - |s|, _ => '0') + s
  }

  /** `b.toString(16).padStart(2, '0')`: always two digits, high nibble first. */
  function ByteHex(b: Byte): (r: string)
    ensures r == [HexDigit(b as nat / 16), HexDigit(b as nat % 16)]
  {
    PadStart2(ToBase16(b))
  }

  /** The hex step: each byte's two digits, joined with `''` in byte order. */
  function Hex(bytes: seq<Byte>): (r: string)
    ensures |r| == 2 * |bytes|
    ensures forall k :: 0 <= k < |r| ==> IsLowerHexDigit(r[k])
  {
    if bytes == [] then [] else ByteHex(bytes[0]) + Hex(bytes[1..])
  }

  function HexDigitValue(c: char): (n: nat)
    requires IsLowerHexDigit(c)
    ensures n < 16
  {
    if IsDigit(c) then c as int - '0' as int else c as int - 'a' as int + 10
  }

  /** Reading a digest back: each pair of lower-case hex digits is one byte. */
  function Unhex(s: string): (bytes: seq<Byte>)
    requires |s| % 2 == 0 && forall k :: 0 <= k < |s| ==> IsLowerHexDigit(s[k])
    ensures |bytes| == |s| / 2
  {
    if s == [] then []
    else [(HexDigitValue(s[0]) * 16 + HexDigitValue(s[1])) as Byte] + Unhex(s[2..])
  }

  lemma HexDigitRoundTrip(n: nat)
    requires n < 16
    ensures HexDigitValue(HexDigit(n)) == n
  {
  }

  /** The hex step loses nothing: the digest's bytes can be read back from its text. */
  lemma {:induction false} HexRoundTrip(bytes: seq<Byte>)
    ensures Unhex(Hex(bytes)) == bytes
  {
    if bytes != [] {
      var b := bytes[0] as nat;
      HexDigitRoundTrip(b / 16);
      HexDigitRoundTrip(b % 16);
      var h := Hex(bytes);
      assert h[..2] == ByteHex(bytes[0]) && h[2..] == Hex(bytes[1..]);
      HexRoundTrip(bytes[1..]);
    }
  }

  /** Two digests with the same text have the same bytes. */
  lemma HexInjective(a: seq<Byte>, b: seq<Byte>)
    requires Hex(a) == Hex(b)
    ensures a == b
  {
    HexRoundTrip(a);
    HexRoundTrip(b);
  }

  // ------------------------------------------------------------- colour gamut

  /** `Array.prototype.find`: the first element that satisfies `p`. */
  function Find(xs: seq<string>, p: string -> bool): (r: Option<string>)
    ensures r.None? <==> forall i :: 0 <= i < |xs| ==> !p(xs[i])
    ensures r.Some? ==> exists i :: 0 <= i < |xs| && xs[i] == r.value && p(xs[i]) && forall j :: 0 <= j < i ==> !p(xs[j])
  {
    if xs == [] then None
    else if p(xs[0]) then Some(xs[0])
    else
      var r := Find(xs[1..], p);
      assert forall i :: 1 <= i < |xs| ==> xs[i] == xs[1..][i - 1];
      if r.Some? then
        var i :| 0 <= i < |xs[1..]| && xs[1..][i] == r.value && p(xs[1..][i]) && forall j :: 0 <= j < i ==> !p(xs[1..][j]);
        assert xs[i + 1] == r.value;
        r
      else r
  }

  const Gamuts: seq<string> := ["rec2020", "p3", "srgb"]

  /**
   * `color_gamut`: the first gamut whose `(color-gamut: ...)` media query
   * matches, or `null`; `matchMedia` answers the query.
   */
  function ColorGamut(matchMedia: string -> bool): Option<string>
  {
    Find(Gamuts, g => matchMedia("(color-gamut: " + g + ")"))
  }

  /** The widest matching gamut wins: rec2020 before p3 before srgb. */
  lemma GamutPrecedence(matchMedia: string -> bool)
    ensures ColorGamut(matchMedia) == Some("rec2020") <==> matchMedia("(color-gamut: rec2020)")
    ensures ColorGamut(matchMedia) == Some("p3") <==> !matchMedia("(color-gamut: rec2020)") && matchMedia("(color-gamut: p3)")
    ensures ColorGamut(matchMedia) == Some("srgb") <==>
      !matchMedia("(color-gamut: rec2020)") && !matchMedia("(color-gamut: p3)") && matchMedia("(color-gamut: srgb)")
    ensures ColorGamut(matchMedia).None? <==>
      !matchMedia("(color-gamut: rec2020)") && !matchMedia("(color-gamut: p3)") && !matchMedia("(color-gamut: srgb)")
  {
    assert "(color-gamut: " + "rec2020" + ")" == "(color-gamut: rec2020)";
    assert "(color-gamut: " + "p3" + ")" == "(color-gamut: p3)";
    assert "(color-gamut: " + "srgb" + ")" == "(color-gamut: srgb)";
    assert Gamuts[1..] == ["p3", "srgb"] && Gamuts[1..][1..] == ["srgb"] && Gamuts[1..][1..][1..] == [];
  }

  // ------------------------------------------------------ probes in a loop

  /**
   * A `for ... of` loop that pushes each candidate whose probe succeeds:
   * the result keeps exactly the accepted candidates, in candidate order.
   */
  method SelectAccepted(candidates: seq<string>, accepted: string -> bool) returns (selected: seq<string>)
    ensures selected == Filter(accepted, candidates)
  {
    selected := [];
    for i := 0 to |candidates|
      invariant selected == Filter(accepted, candidates[..i])
    {
      assert candidates[..i + 1] == candidates[..i] + [candidates[i]];
      FilterSnoc(accepted, candidates[..i], candidates[i]);
      if accepted(candidates[i]) {
        selected := selected + [candidates[i]];
      }
    }
    assert candidates[..|candidates|] == candidates;
  }

  const KeySystems: seq<string> := ["com.widevine.alpha", "com.microsoft.playready", "com.apple.fps.1_0"]

  /** The page script's CDM list: `[]` without the API, else the key systems whose request resolved. */
  function PageCdms(apiPresent: bool, resolves: string -> bool): seq<string>
  {
    if apiPresent then Filter(resolves, KeySystems) else []
  }

  /** The stand-alone script's CDM list: as the page's, except that no accepted key system is `null`. */
  function ScriptCdms(apiPresent: bool, resolves: string -> bool): Option<seq<string>>
  {
    if !apiPresent then Some([])
    else if Filter(resolves, KeySystems) == [] then None
    else Some(Filter(resolves, KeySystems))
  }

  /**
   * `getAvailableCDMs` of the page script: `[]` without
   * `requestMediaKeySystemAccess`, else the key systems whose request resolved.
   */
  method AvailableCDMs(apiPresent: bool, resolves: string -> bool) returns (cdms: seq<string>)
    ensures cdms == PageCdms(apiPresent, resolves)
    ensures !apiPresent ==> cdms == []
    ensures apiPresent ==> cdms == Filter(resolves, KeySystems)
  {
    if !apiPresent {
      return [];
    }
    cdms := SelectAccepted(KeySystems, resolves);
  }

  /**
   * `getAvailableCDMs` of the stand-alone script: as above, except that an
   * empty list of accepted key systems is reported as `null`.
   */
  method AvailableCDMsOrNull(apiPresent: bool, resolves: string -> bool) returns (cdms: Option<seq<string>>)
    ensures cdms == ScriptCdms(apiPresent, resolves)
    ensures !apiPresent ==> cdms == Some([])
    ensures apiPresent && Filter(resolves, KeySystems) == [] ==> cdms.None?
    ensures apiPresent && Filter(resolves, KeySystems) != [] ==> cdms == Some(Filter(resolves, KeySystems))
  {
    if !apiPresent {
      return Some([]);
    }
    var supported := SelectAccepted(KeySystems, resolves);
    cdms := if |supported| > 0 then Some(supported) else None;
  }

  /** The accepted key systems are an ordered selection of the three, each of them accepted. */
  lemma CdmListOrdered(resolves: string -> bool)
    ensures IsSubsequence(Filter(resolves, KeySystems), KeySystems)
    ensures |Filter(resolves, KeySystems)| <= 3
    ensures forall k :: k in Filter(resolves, KeySystems) <==> k in KeySystems && resolves(k)
  {
    FilterIsSubsequence(resolves, KeySystems);
    FilterContents(resolves, KeySystems);
  }

  /**
   * The two scripts report the same CDM list except exactly when the API
   * exists and none of the three key systems is accepted; then the page
   * reports `[]` and the stand-alone script `null`.
   */
  lemma CdmVariantsDiffer(apiPresent: bool, resolves: string -> bool)
    ensures Filter(resolves, KeySystems) == [] <==> forall i :: 0 <= i < 3 ==> !resolves(KeySystems[i])
    ensures ScriptCdms(apiPresent, resolves) != Some(PageCdms(apiPresent, resolves))
            <==> apiPresent && forall i :: 0 <= i < 3 ==> !resolves(KeySystems[i])
    ensures ScriptCdms(apiPresent, resolves) != Some(PageCdms(apiPresent, resolves))
            ==> PageCdms(apiPresent, resolves) == [] && ScriptCdms(apiPresent, resolves).None?
  {
    FilterContents(resolves, KeySystems);
    if Filter(resolves, KeySystems) != [] {
      var k := Filter(resolves, KeySystems)[0];
      assert k in Filter(resolves, KeySystems);
    } else {
      forall i | 0 <= i < 3 ensures !resolves(KeySystems[i]) {
        assert KeySystems[i] in KeySystems;
      }
    }
  }

  const AudioCandidates: seq<string> := ["audio/mp4; codecs=\"mp4a.40.2\"", "audio/webm; codecs=\"opus\"", "audio/ogg; codecs=\"vorbis\""]

  const VideoCandidates: seq<string> := [
    "video/mp4; codecs=\"avc1.42E01E\"", "video/webm; codecs=\"vp8\"",
    "video/webm; codecs=\"vp9\"", "video/ogg; codecs=\"theora\""
  ]

  /**
   * The `audio_codecs` loop. `decodingInfo(c)` is the `supported` flag the
   * media-capabilities query resolves with, or `None` when it rejects; such a
   * rejection is not caught by `checkAudioCodec` and aborts the collection,
   * which is reported as `None`. Without the API every check is `false`.
   */
  method AudioCodecs(apiPresent: bool, decodingInfo: string -> Option<bool>) returns (r: Option<seq<string>>)
    ensures !apiPresent ==> r == Some([])
    ensures apiPresent ==> (r.None? <==> exists i :: 0 <= i < |AudioCandidates| && decodingInfo(AudioCandidates[i]).None?)
    ensures apiPresent && r.Some? ==> r.value == Filter(c => decodingInfo(c) == Some(true), AudioCandidates)
  {
    var supported := c => decodingInfo(c) == Some(true);
    var selected := [];
    for i := 0 to |AudioCandidates|
      invariant selected == (if apiPresent then Filter(supported, AudioCandidates[..i]) else [])
      invariant apiPresent ==> forall j :: 0 <= j < i ==> decodingInfo(AudioCandidates[j]).Some?
    {
      var c := AudioCandidates[i];
      assert AudioCandidates[..i + 1] == AudioCandidates[..i] + [c];
      FilterSnoc(supported, AudioCandidates[..i], c);
      if apiPresent {
        var info := decodingInfo(c);
        if info.None? {
          return None;
        }
        if info.value {
          selected := selected + [c];
        }
      }
    }
    assert AudioCandidates[..|AudioCandidates|] == AudioCandidates;
    r := Some(selected);
  }

  /**
   * The `video_codecs` loop: `checkVideoCodec` yields `null` without the API
   * or when the query rejects, and `null` is falsy, so only candidates whose
   * query resolved with `supported` set are kept.
   */
  method VideoCodecs(apiPresent: bool, decodingInfo: string -> Option<bool>) returns (codecs: seq<string>)
    ensures codecs == Filter(c => apiPresent && decodingInfo(c) == Some(true), VideoCandidates)
  {
    codecs := SelectAccepted(VideoCandidates, c => apiPresent && decodingInfo(c) == Some(true));
  }

  /** A codec list names each candidate at most once, in candidate order, and only supported ones. */
  lemma CodecListOrdered(candidates: seq<string>, decodingInfo: string -> Option<bool>)
    ensures IsSubsequence(Filter(c => decodingInfo(c) == Some(true), candidates), candidates)
    ensures forall c :: c in Filter(c => decodingInfo(c) == Some(true), candidates) <==> c in candidates && decodingInfo(c) == Some(true)
  {
    var supported := c => decodingInfo(c) == Some(true);
    FilterIsSubsequence(supported, candidates);
    FilterContents(supported, candidates);
  }

  // ------------------------------------------------------------ `||` defaults

  /** The browser values the collectors read, as JavaScript sees them. */
  datatype JsValue =
    | Undefined
    | Null
    | Boolean(b: bool)
    | Number(n: real)
    | NaN
    | Str(s: string)
    | Object(members: seq<(string, JsValue)>)

  predicate Truthy(v: JsValue)
  {
    match v
    case Undefined => false
    case Null => false
    case Boolean(b) => b
    case Number(n) => n != 0.0
    case NaN => false
    case Str(s) => s != ""
    case Object(_) => true
  }

  /** `a || b`. */
  function Or(a: JsValue, b: JsValue): (r: JsValue)
    ensures Truthy(a) ==> r == a
    ensures !Truthy(a) ==> r == b
  {
    if Truthy(a) then a else b
  }

  /** `v.name`: a property of an object, `undefined` when it is missing or `v` is no object. */
  function Get(v: JsValue, name: string): JsValue
  {
    match v
    case Object(members) => GetOr(members, name, Undefined)
    case _ => Undefined
  }

  /** `navigator.connection || navigator.mozConnection || navigator.webkitConnection || {}`. */
  function Connection(standard: JsValue, moz: JsValue, webkit: JsValue): JsValue
  {
    Or(standard, Or(moz, Or(webkit, Object([]))))
  }

  /** The `network` record: `effective_type`, `downlink` and `rtt`, each with its `||` default. */
  function Network(connection: JsValue): JsValue
  {
    Object([
      ("effective_type", Or(Get(connection, "effectiveType"), Str(""))),
      ("downlink", Or(Get(connection, "downlink"), Number(0.0))),
      ("rtt", Or(Get(connection, "rtt"), Number(0.0)))
    ])
  }

  /** Without any connection object the network record is `''`, 0, 0. */
  lemma NoConnectionDefaults(standard: JsValue, moz: JsValue, webkit: JsValue)
    requires !Truthy(standard) && !Truthy(moz) && !Truthy(webkit)
    ensures Network(Connection(standard, moz, webkit))
            == Object([("effective_type", Str("")), ("downlink", Number(0.0)), ("rtt", Number(0.0))])
  {
  }

  /**
   * Each network value is either the connection's own truthy value or the
   * default: never `undefined`, `null` or `NaN`.
   */
  lemma NetworkValuesDefined(connection: JsValue)
    ensures forall i :: 0 <= i < 3 ==>
      var v := Network(connection).members[i].1;
      v != Undefined && v != Null && v != NaN
    ensures Network(connection).members[0].1 == Str("") || Truthy(Network(connection).members[0].1)
    ensures Network(connection).members[1].1 == Number(0.0) || Truthy(Network(connection).members[1].1)
    ensures Network(connection).members[2].1 == Number(0.0) || Truthy(Network(connection).members[2].1)
  {
  }

  /** `timings` in the page script: `performance.getEntriesByType('navigation')[0]?.toJSON() || {}`. */
  function PageTimings(navigation: seq<JsValue>, toJson: JsValue -> JsValue): JsValue
  {
    Or(if |navigation| > 0 then toJson(navigation[0]) else Undefined, Object([]))
  }

  /** `timings` in the stand-alone script: `navigationEntries.length > 0 ? navigationEntries[0].toJSON() : {}`. */
  function ScriptTimings(navigation: seq<JsValue>, toJson: JsValue -> JsValue): JsValue
  {
    if |navigation| > 0 then toJson(navigation[0]) else Object([])
  }

  /**
   * Both collectors give `{}` when there is no navigation entry, and the same
   * value whenever the entry's `toJSON()` is an object; they differ only when
   * it is falsy.
   */
  lemma TimingsAgree(navigation: seq<JsValue>, toJson: JsValue -> JsValue)
    ensures navigation == [] ==> PageTimings(navigation, toJson) == Object([]) && ScriptTimings(navigation, toJson) == Object([])
    ensures navigation != [] && Truthy(toJson(navigation[0])) ==> PageTimings(navigation, toJson) == ScriptTimings(navigation, toJson)
    ensures PageTimings(navigation, toJson) != ScriptTimings(navigation, toJson) ==>
      navigation != [] && !Truthy(toJson(navigation[0])) && PageTimings(navigation, toJson) == Object([])
  {
  }

  // ------------------------------------------------------ network_timing

  /** A resource-timing entry: its `name` and `responseEnd - startTime`, computed by the browser. */
  datatype ResourceEntry = ResourceEntry(name: string, duration: real)

  /** The entries as (key, value) assignments, in order. */
  function Assignments(entries: seq<ResourceEntry>): (pairs: seq<(string, JsValue)>)
    ensures |pairs| == |entries|
    ensures forall i :: 0 <= i < |entries| ==> pairs[i] == (entries[i].name, Number(entries[i].duration))
  {
    seq(|entries|, i requires 0 <= i < |entries| => (entries[i].name, Number(entries[i].duration)))
  }

  /** The accumulator after the `reduce` has seen `entries`: `acc[e.name] = ...` for each in turn. */
  function Reduced(entries: seq<ResourceEntry>): seq<(string, JsValue)>
  {
    if entries == [] then []
    else
      var e := entries[|entries| - 1];
      SetItem(Reduced(entries[..|entries| - 1]), e.name, Number(e.duration))
  }

  /**
   * `network_timing`: `resourceEntries.reduce((acc, e) => { acc[e.name] = ...; return acc; }, {})`.
   */
  method NetworkTiming(entries: seq<ResourceEntry>) returns (acc: seq<(string, JsValue)>)
    ensures acc == Reduced(entries)
  {
    acc := [];
    for i := 0 to |entries|
      invariant acc == Reduced(entries[..i])
    {
      assert entries[..i + 1][..i] == entries[..i];
      acc := SetItem(acc, entries[i].name, Number(entries[i].duration));
    }
    assert entries[..|entries|] == entries;
  }

  /**
   * The reduction builds a proper object: one key per resource name, in the
   * order the names first appear, holding the duration of the last entry with
   * that name.
   */
  lemma {:induction false} ReducedIsObject(entries: seq<ResourceEntry>)
    ensures DistinctKeys(Reduced(entries))
    ensures Keys(Reduced(entries)) == Keys(Assignments(entries))
    ensures forall n :: Lookup(Reduced(entries), n) == Lookup(Assignments(entries), n)
  {
    if entries != [] {
      var init := entries[..|entries| - 1];
      var e := entries[|entries| - 1];
      ReducedIsObject(init);
      SetItemEffect(Reduced(init), e.name, Number(e.duration));
      var pairs := Assignments(entries);
      assert pairs[..|pairs| - 1] == Assignments(init);
      assert pairs[|pairs| - 1] == (e.name, Number(e.duration));
    }
  }

  /** The entry that last names a resource decides its duration. */
  lemma LastEntryWins(entries: seq<ResourceEntry>, i: nat)
    requires i < |entries|
    requires forall j :: i < j < |entries| ==> entries[j].name != entries[i].name
    ensures Lookup(Reduced(entries), entries[i].name) == Some(Number(entries[i].duration))
  {
    ReducedIsObject(entries);
    var pairs := Assignments(entries);
    var r := Lookup(pairs, entries[i].name);
    var k :| 0 <= k < |pairs| && pairs[k] == (entries[i].name, r.value) && forall j :: k < j < |pairs| ==> pairs[j].0 != entries[i].name;
    assert k == i;
  }
}
