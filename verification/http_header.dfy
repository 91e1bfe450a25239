/**
 * The header/connection inspector of website/fingerprint/http_header.py:
 * `create_http_header_fingerprint` derives one record from the request's header
 * mapping and its transport metadata (`request.META`).
 */
module HttpHeader {
  import opened Wrappers
  import opened Text

  /** One item of Django's `request.headers` mapping, in iteration order. */
  datatype Header = Header(name: string, value: string)

  /** What the inspector reads from a request: the header items and `request.META`. */
  datatype Request = Request(headers: seq<Header>, meta: map<string, string>)

  /** The `HttpHeaderFingerprint` dataclass of http_header.py. */
  datatype HttpHeaderFingerprint = HttpHeaderFingerprint(
    headerCount: Option<int>,
    httpVersion: Option<string>,
    tlsProtocol: Option<string>,
    tlsCipherSuite: Option<string>,
    headersPresent: seq<string>,
    unusualHeaders: seq<string>,
    referer: Option<string>)

  /** `HttpHeaderFingerprint()`: every scalar `None`, both lists fresh and empty. */
  const DefaultFingerprint := HttpHeaderFingerprint(None, None, None, None, [], [], None)

  /** The fixed, lower-cased set of common header names. */
  const CommonHeaders: set<string> := {
    "accept", "accept-encoding", "accept-language", "cache-control",
    "connection", "cookie", "host", "pragma", "referer", "user-agent",
    "upgrade-insecure-requests"
  }

  predicate IsUnusual(name: string)
  {
    Lower(name) !in CommonHeaders
  }

  function Names(headers: seq<Header>): (names: seq<string>)
    ensures |names| == |headers|
    ensures forall i :: 0 <= i < |headers| ==> names[i] == headers[i].name
  {
    seq(|headers|, i requires 0 <= i < |headers| => headers[i].name)
  }

  /** `headers.get(key)`: Django's header mapping looks names up regardless of case. */
  function GetHeader(headers: seq<Header>, key: string): (r: Option<string>)
    ensures r.None? ==> forall i :: 0 <= i < |headers| ==> Lower(headers[i].name) != Lower(key)
    ensures r.Some? ==> exists i :: 0 <= i < |headers| && Lower(headers[i].name) == Lower(key) && headers[i].value == r.value
  {
    if headers == [] then None
    else if Lower(headers[0].name) == Lower(key) then Some(headers[0].value)
    else
      var r := GetHeader(headers[1..], key);
      assert forall i :: 1 <= i < |headers| ==> headers[i] == headers[1..][i - 1];
      r
  }

  /** `request.META.get(key)`. */
  function MetaGet(meta: map<string, string>, key: string): Option<string>
  {
    if key in meta then Some(meta[key]) else None
  }

  function CreateHttpHeaderFingerprint(request: Request): (r: HttpHeaderFingerprint)
    ensures r.headerCount == Some(|request.headers|)
    ensures |r.headersPresent| == |request.headers|
    ensures forall i :: 0 <= i < |request.headers| ==> r.headersPresent[i] == request.headers[i].name
    ensures r.unusualHeaders == Filter(IsUnusual, r.headersPresent)
    ensures r.referer == GetHeader(request.headers, "Referer")
    ensures r.httpVersion == (if "SERVER_PROTOCOL" in request.meta then Some(request.meta["SERVER_PROTOCOL"]) else None)
    ensures r.tlsProtocol == (if "SSL_PROTOCOL" in request.meta then Some(request.meta["SSL_PROTOCOL"]) else None)
    ensures r.tlsCipherSuite == (if "SSL_CIPHER" in request.meta then Some(request.meta["SSL_CIPHER"]) else None)
  {
    var present := Names(request.headers);
    var unusual := Filter(IsUnusual, present);
    HttpHeaderFingerprint(
      headerCount := Some(|request.headers|),
      httpVersion := MetaGet(request.meta, "SERVER_PROTOCOL"),
      tlsProtocol := MetaGet(request.meta, "SSL_PROTOCOL"),
      tlsCipherSuite := MetaGet(request.meta, "SSL_CIPHER"),
      headersPresent := present,
      unusualHeaders := unusual,
      referer := GetHeader(request.headers, "Referer"))
  }

  /**
   * The unusual headers are the present ones outside the common set, in
   * request order, each as often as it occurs among the present ones.
   */
  lemma UnusualHeadersSelected(request: Request)
    ensures var r := CreateHttpHeaderFingerprint(request);
      IsSubsequence(r.unusualHeaders, r.headersPresent)
      && (forall h :: h in r.unusualHeaders <==> h in r.headersPresent && IsUnusual(h))
      && (forall h :: multiset(r.unusualHeaders)[h] == if IsUnusual(h) then multiset(r.headersPresent)[h] else 0)
      && |r.unusualHeaders| <= |request.headers|
  {
    FilterIsSubsequence(IsUnusual, Names(request.headers));
    FilterContents(IsUnusual, Names(request.headers));
  }

  /** The referer is recorded exactly when some header is named `referer`, in any casing, and then it is that header's value. */
  lemma RefererRecorded(request: Request)
    ensures var r := CreateHttpHeaderFingerprint(request);
      r.referer.Some? <==> exists i :: 0 <= i < |request.headers| && Lower(request.headers[i].name) == "referer"
    ensures var r := CreateHttpHeaderFingerprint(request);
      r.referer.Some? ==> exists i :: 0 <= i < |request.headers| && Lower(request.headers[i].name) == "referer"
                                      && request.headers[i].value == r.referer.value
  {
    RefererLowered();
    HeaderMatches(request.headers, "Referer", "referer");
  }

  lemma RefererLowered()
    ensures Lower("Referer") == "referer"
  {
  }

  /** `headers.get(key)` finds a value exactly when some name matches `key` regardless of case. */
  lemma HeaderMatches(headers: seq<Header>, key: string, lowered: string)
    requires Lower(key) == lowered
    ensures GetHeader(headers, key).Some? <==> exists i :: 0 <= i < |headers| && Lower(headers[i].name) == lowered
    ensures GetHeader(headers, key).Some? ==>
      exists i :: 0 <= i < |headers| && Lower(headers[i].name) == lowered && headers[i].value == GetHeader(headers, key).value
  {
  }

  /** Classification ignores case: a name and its lower-cased form are judged alike. */
  lemma UnusualIgnoresCase(name: string)
    ensures IsUnusual(name) == IsUnusual(Lower(name))
  {
    LowerIdempotent(name);
  }

  /** A header whose name, in any casing, is one of the common names never appears among the unusual ones. */
  lemma CommonHeaderNeverUnusual(request: Request, i: int)
    requires 0 <= i < |request.headers|
    requires Lower(request.headers[i].name) in CommonHeaders
    ensures request.headers[i].name !in CreateHttpHeaderFingerprint(request).unusualHeaders
  {
    FilterContents(IsUnusual, Names(request.headers));
  }

  /** A header whose lower-cased name is outside the common set is always listed as unusual. */
  lemma OtherHeaderAlwaysUnusual(request: Request, i: int)
    requires 0 <= i < |request.headers|
    requires Lower(request.headers[i].name) !in CommonHeaders
    ensures request.headers[i].name in CreateHttpHeaderFingerprint(request).unusualHeaders
  {
    var r := CreateHttpHeaderFingerprint(request);
    FilterContents(IsUnusual, Names(request.headers));
    assert r.headersPresent[i] == request.headers[i].name;
  }
}
