/**
 * The ingestion endpoint `create_fingerprint_from_request`: method check, the
 * upload-size limit, body decoding, then `create_fingerprint` inside
 * `transaction.atomic()`, each outcome mapped to its status code and JSON body.
 */
module Views {
  import opened Wrappers
  import opened JsonData
  import opened Errors
  import opened Datastore
  import opened Helpers
  import opened Models

  datatype Response =
      /** A `JsonResponse`: its status code and the dict it serialises. */
    | Response(status: int, body: Json)
      /** Django's own 400 page for the `RequestDataTooBig` of an oversized body. */
    | TooLarge
      /** Django's own error response for an exception the view lets escape. */
    | ServerError

  /**
   * The status code sent: Django answers a `SuspiciousOperation` such as
   * `RequestDataTooBig` with 400 and any other escaped exception with 500.
   */
  function Status(r: Response): int
  {
    match r
    case Response(status, _) => status
    case TooLarge => 400
    case ServerError => 500
  }

  /** `{"error": text}`. */
  function ErrorBody(text: string): Json
  {
    JObject([("error", JStr(text))])
  }

  /** `{"status": "ok", "fingerprint_id": id}`. */
  function CreatedBody(id: nat): Json
  {
    JObject([("status", JStr("ok")), ("fingerprint_id", JInt(id))])
  }

  /**
   * `str(e)`: the text the model fixes for an exception, and otherwise the text
   * `describe` gives (Django's own messages are not modelled).
   */
  function ErrorText(f: Failure, describe: Failure -> string): string
  {
    match Message(f)
    case Some(text) => text
    case None => describe(f)
  }

  /**
   * The store and the response after the view handles `request` on a store in
   * state `s`. `maxUpload` is the `DATA_UPLOAD_MAX_MEMORY_SIZE` setting, which
   * `request.body` enforces before `json.loads` runs. `decode` stands for
   * `json.loads`; only its `JSONDecodeError` is caught. A failure inside the
   * atomic block leaves the store as it was.
   */
  function ViewResult(s: StoreState, request: Request, maxUpload: Option<nat>, decode: seq<bv8> -> Loaded,
                      describe: Failure -> string, plan: seq<PlanEntry>, now: int): (StoreState, Response)
  {
    if request.httpMethod != "POST" then (s, Response(405, ErrorBody("Invalid method")))
    else if BodyTooLarge(request, maxUpload) then (s, TooLarge)
    else
      match decode(request.body)
      case DecodeError => (s, Response(400, ErrorBody("Invalid JSON")))
      case OtherError => (s, ServerError)
      case Parsed(data) =>
        var o := CreateResult(s, data, plan, now);
        match o.result
        case Ok(id) => (o.state, Response(200, CreatedBody(id)))
        case Err(f) => (s, Response(500, ErrorBody(ErrorText(f, describe))))
  }

  /**
   * `create_fingerprint_from_request(request)`: the atomic block is a snapshot of
   * the store, restored when `create_fingerprint` raises.
   */
  method CreateFingerprintFromRequest(store: Store, request: Request, maxUpload: Option<nat>, decode: seq<bv8> -> Loaded,
                                      describe: Failure -> string, plan: seq<PlanEntry>, now: int)
    returns (response: Response)
    modifies store
    ensures (store.State(), response) == ViewResult(old(store.State()), request, maxUpload, decode, describe, plan, now)
  {
    if request.httpMethod != "POST" {
      return Response(405, ErrorBody("Invalid method"));
    }
    if BodyTooLarge(request, maxUpload) {
      return TooLarge;
    }
    var decoded := decode(request.body);
    if decoded.DecodeError? {
      return Response(400, ErrorBody("Invalid JSON"));
    }
    if decoded.OtherError? {
      return ServerError;
    }
    var snapshot := store.State();
    var r := CreateFingerprint(store, decoded.value, plan, now);
    if r.Err? {
      store.Restore(snapshot);
      return Response(500, ErrorBody(ErrorText(r.error, describe)));
    }
    response := Response(200, CreatedBody(r.value));
  }

  /** A plan whose entries are distinct and fill every slot. */
  predicate PlanWellFormed(plan: seq<PlanEntry>)
  {
    DistinctEntries(plan) && CoversSlots(plan)
  }

  /** Only four status codes are ever sent, and only a 200 changes the store. */
  lemma StatusesAndWrites(s: StoreState, request: Request, maxUpload: Option<nat>, decode: seq<bv8> -> Loaded,
                          describe: Failure -> string, plan: seq<PlanEntry>, now: int)
    ensures Status(ViewResult(s, request, maxUpload, decode, describe, plan, now).1) in {200, 400, 405, 500}
    ensures Status(ViewResult(s, request, maxUpload, decode, describe, plan, now).1) != 200 ==> ViewResult(s, request, maxUpload, decode, describe, plan, now).0 == s
  {
  }

  /**
   * The method is checked before the body is looked at: any request other than
   * a POST gets 405 `{"error": "Invalid method"}` and writes nothing, whatever
   * its body.
   */
  lemma NonPostRejected(s: StoreState, request: Request, maxUpload: Option<nat>, decode: seq<bv8> -> Loaded,
                        describe: Failure -> string, plan: seq<PlanEntry>, now: int)
    ensures Status(ViewResult(s, request, maxUpload, decode, describe, plan, now).1) == 405
            <==> request.httpMethod != "POST"
    ensures request.httpMethod != "POST" ==>
      ViewResult(s, request, maxUpload, decode, describe, plan, now) == (s, Response(405, ErrorBody("Invalid method")))
  {
  }

  /**
   * A POST whose declared length is above the upload limit gets Django's own
   * 400 before `json.loads` runs, and writes nothing.
   */
  lemma OversizedBodyRejected(s: StoreState, request: Request, maxUpload: Option<nat>, decode: seq<bv8> -> Loaded,
                              describe: Failure -> string, plan: seq<PlanEntry>, now: int)
    ensures ViewResult(s, request, maxUpload, decode, describe, plan, now).1.TooLarge?
            <==> request.httpMethod == "POST" && BodyTooLarge(request, maxUpload)
    ensures request.httpMethod == "POST" && BodyTooLarge(request, maxUpload) ==>
      ViewResult(s, request, maxUpload, decode, describe, plan, now) == (s, TooLarge)
  {
  }

  /**
   * A 400 comes from an oversized body or from a body that is not JSON text;
   * the latter gets `{"error": "Invalid JSON"}`. Neither writes anything.
   */
  lemma UndecodableRejected(s: StoreState, request: Request, maxUpload: Option<nat>, decode: seq<bv8> -> Loaded,
                            describe: Failure -> string, plan: seq<PlanEntry>, now: int)
    ensures Status(ViewResult(s, request, maxUpload, decode, describe, plan, now).1) == 400
            <==> request.httpMethod == "POST" && (BodyTooLarge(request, maxUpload) || decode(request.body).DecodeError?)
    ensures request.httpMethod == "POST" && !BodyTooLarge(request, maxUpload) && decode(request.body).DecodeError? ==>
      ViewResult(s, request, maxUpload, decode, describe, plan, now) == (s, Response(400, ErrorBody("Invalid JSON")))
  {
  }

  /**
   * The other exceptions of `json.loads` are not caught: a POST whose bytes are
   * not UTF-8 text, or whose JSON nests too deeply, gets Django's own 500 and
   * writes nothing. These and the oversized bodies are the only requests that
   * get no JSON body.
   */
  lemma UncaughtLoadError(s: StoreState, request: Request, maxUpload: Option<nat>, decode: seq<bv8> -> Loaded,
                          describe: Failure -> string, plan: seq<PlanEntry>, now: int)
    ensures ViewResult(s, request, maxUpload, decode, describe, plan, now).1.ServerError?
            <==> request.httpMethod == "POST" && !BodyTooLarge(request, maxUpload) && decode(request.body).OtherError?
    ensures request.httpMethod == "POST" && !BodyTooLarge(request, maxUpload) && decode(request.body).OtherError? ==>
      ViewResult(s, request, maxUpload, decode, describe, plan, now) == (s, ServerError)
  {
  }

  /**
   * A decoded POST gets 200 exactly when every component was built, and 500
   * otherwise, carrying the exception's text; after a 500 the store holds
   * neither component rows nor a parent row from the request.
   */
  lemma FailureRollsBack(s: StoreState, request: Request, maxUpload: Option<nat>, decode: seq<bv8> -> Loaded,
                         describe: Failure -> string, plan: seq<PlanEntry>, now: int)
    requires ValidState(s) && PlanWellFormed(plan)
    requires request.httpMethod == "POST" && !BodyTooLarge(request, maxUpload) && decode(request.body).Parsed?
    ensures var data := decode(request.body).value;
      Status(ViewResult(s, request, maxUpload, decode, describe, plan, now).1) == 200 <==> BuildResult(s, data, plan).result.Ok?
    ensures var data := decode(request.body).value;
      BuildResult(s, data, plan).result.Err? ==>
        ViewResult(s, request, maxUpload, decode, describe, plan, now)
        == (s, Response(500, ErrorBody(ErrorText(BuildResult(s, data, plan).result.error, describe))))
  {
    var data := decode(request.body).value;
    CreateEffects(s, data, plan, now);
    var b := BuildResult(s, data, plan);
    if b.result.Err? {
      assert CreateResult(s, data, plan, now).result == Err(b.result.error);
    }
  }

  /**
   * A 200 names a Fingerprint that is now in the store and was not before:
   * exactly one parent row was added, linking one fresh row in each of the
   * twenty component tables, and each component table grew by that one row.
   */
  lemma SuccessCreates(s: StoreState, request: Request, maxUpload: Option<nat>, decode: seq<bv8> -> Loaded,
                       describe: Failure -> string, plan: seq<PlanEntry>, now: int)
    requires ValidState(s) && PlanWellFormed(plan)
    requires Status(ViewResult(s, request, maxUpload, decode, describe, plan, now).1) == 200
    ensures var (s', response) := ViewResult(s, request, maxUpload, decode, describe, plan, now);
      exists id: nat :: response == Response(200, CreatedBody(id)) && FingerprintCreated(s, s', id, now)
  {
    var data := decode(request.body).value;
    CreateEffects(s, data, plan, now);
    var id := CreateResult(s, data, plan, now).result.value;
    assert ViewResult(s, request, maxUpload, decode, describe, plan, now).1 == Response(200, CreatedBody(id));
  }

  /** With the Browser entry as written, no request is ever answered 200 and none writes anything. */
  lemma AsWrittenNeverCreates(s: StoreState, request: Request, maxUpload: Option<nat>, decode: seq<bv8> -> Loaded,
                              describe: Failure -> string, now: int)
    requires ValidState(s)
    ensures Status(ViewResult(s, request, maxUpload, decode, describe, AsWrittenPlan, now).1) != 200
    ensures ViewResult(s, request, maxUpload, decode, describe, AsWrittenPlan, now).0 == s
  {
    if request.httpMethod == "POST" && !BodyTooLarge(request, maxUpload) && decode(request.body).Parsed? {
      AsWrittenCreateFails(s, decode(request.body).value, now);
    }
  }

  /** With the corrected Browser entry, a POST of `{}` is answered 200 and stores a fingerprint. */
  lemma CorrectedEmptyPostCreates(s: StoreState, request: Request, maxUpload: Option<nat>, decode: seq<bv8> -> Loaded,
                                  describe: Failure -> string, now: int)
    requires ValidState(s)
    requires request.httpMethod == "POST" && !BodyTooLarge(request, maxUpload) && decode(request.body) == Parsed(JObject([]))
    ensures Status(ViewResult(s, request, maxUpload, decode, describe, CorrectedPlan, now).1) == 200
    ensures var (s', response) := ViewResult(s, request, maxUpload, decode, describe, CorrectedPlan, now);
      exists id: nat :: response == Response(200, CreatedBody(id)) && FingerprintCreated(s, s', id, now)
  {
    CorrectedEmptyDocumentCreates(s, now);
    PlansWellFormed();
    SuccessCreates(s, request, maxUpload, decode, describe, CorrectedPlan, now);
  }

  /**
   * A POST whose `behavioral.typing_speed` is an int beyond the double range
   * is answered 500 and writes nothing, even with the corrected Browser entry:
   * `float()` raises `OverflowError`, which `full_clean` lets through.
   */
  lemma TypingSpeedOverflowFails(s: StoreState, request: Request, maxUpload: Option<nat>, decode: seq<bv8> -> Loaded,
                                 describe: Failure -> string, now: int, ms: seq<(string, Json)>, n: int)
    requires ValidState(s)
    requires request.httpMethod == "POST" && !BodyTooLarge(request, maxUpload) && decode(request.body) == Parsed(JObject([("behavioral", JObject(ms))]))
    requires GetOr(ms, "typing_speed", JNull) == JInt(n) && !InDoubleRange(n)
    ensures ViewResult(s, request, maxUpload, decode, describe, CorrectedPlan, now).0 == s
    ensures Status(ViewResult(s, request, maxUpload, decode, describe, CorrectedPlan, now).1) == 500
  {
    var data := JObject([("behavioral", JObject(ms))]);
    assert CorrectedPlan[2] == PlanEntry("behavioral", Behavioral, "behavioral", BehavioralEntryFields);
    assert GetOr(data.members, "behavioral", JObject([])) == JObject(ms);
    TypingSpeedOverflow(ms, n);
    EntryFailing(s, data, CorrectedPlan, 2);
    PlansWellFormed();
    FailureRollsBack(s, request, maxUpload, decode, describe, CorrectedPlan, now);
  }
}
