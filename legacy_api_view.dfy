/**
 * The legacy generation's dispatcher (api-view/api-view.js): it validates
 * the request on construction, then looks the handler up, checks the data
 * against the handler's struct, calls `validate` and `process`, and returns
 * early with an envelope whose code depends on the stage that failed.
 */
module LegacyApiView {
  import opened JsValues
  import opened Environment
  import opened LegacyFetcher
  import LegacyError

  /** The legacy envelope passes every check of `_validate`. */
  predicate Acceptable(rd: Value) {
    && rd.Obj?
    && Property(rd, "entity").Str?
    && Property(rd, "action").Str?
    && Property(rd, "method").Str?
  }

  /**
   * `_validate`: the request must be an object (1), then entity (2), action
   * (3) and method (4) must be strings; the first failure is thrown. A null
   * request gets past `_isObject` and reading its `entity` throws a TypeError.
   */
  function Validate(rd: Value): (r: Result<Value, JsError>)
    ensures r.Ok? <==> Acceptable(rd)
    ensures r.Ok? ==> r.value == rd
    ensures r.Err? && !rd.Null? ==> r.error.name == "APIViewError" && r.error.code in {Num(1), Num(2), Num(3), Num(4)}
    ensures !IsObject(rd) ==> r.Err? && r.error.code == Num(1)
    ensures rd.Null? ==> r == Err(NullRead("entity"))
    ensures rd.Obj? && !Property(rd, "entity").Str? ==> r.Err? && r.error.code == Num(2)
    ensures rd.Obj? && Property(rd, "entity").Str? && !Property(rd, "action").Str? ==>
              r.Err? && r.error.code == Num(3)
    ensures rd.Obj? && Property(rd, "entity").Str? && Property(rd, "action").Str? && !Property(rd, "method").Str? ==>
              r.Err? && r.error.code == Num(4)
  {
    if !IsObject(rd) then
      Err(LegacyError.Raise("request data must be an Object", "INVALID_REQUEST_DATA"))
    else if rd.Null? then
      Err(NullRead("entity"))
    else if !Property(rd, "entity").Str? then
      Err(LegacyError.Raise("entity must be an String", "INVALID_ENTITY"))
    else if !Property(rd, "action").Str? then
      Err(LegacyError.Raise("action must be an String", "INVALID_ACTION"))
    else if !Property(rd, "method").Str? then
      Err(LegacyError.Raise("method must be an String", "INVALID_METHOD"))
    else
      Ok(rd)
  }

  /** The fields the legacy constructor stores. */
  datatype LegacyRequest = LegacyRequest(entity: string, action: string, methodName: string, entityId: Value, data: Value)

  /** The constructor's assignments from a valid request: the data defaults to `{}` when falsy. */
  function RequestOf(rd: Value): (q: LegacyRequest)
    requires Validate(rd).Ok?
    ensures Str(q.entity) == Property(rd, "entity") && Str(q.action) == Property(rd, "action")
    ensures Str(q.methodName) == Property(rd, "method") && q.entityId == Property(rd, "entityId")
    ensures Truthy(Property(rd, "data")) ==> q.data == Property(rd, "data")
    ensures !Truthy(Property(rd, "data")) ==> q.data == Obj(map[])
  {
    LegacyRequest(
      Property(rd, "entity").s, Property(rd, "action").s, Property(rd, "method").s,
      Property(rd, "entityId"), Or(Property(rd, "data"), Obj(map[])))
  }

  /** What `dispatch()` resolves to: an error envelope or a success envelope. */
  datatype LegacyResponse =
    | Failure(code: Value, message: Value)
    | Success(code: Value, headers: Value, body: Value)

  /** The code of an error thrown by the struct check or `validate`: a truthy `_httpCode` in [400, 500), else 400. */
  function ValidateCode(err: JsError): (c: Value)
    ensures c == err.httpCode || c == Num(400)
    ensures c == err.httpCode <==> Truthy(err.httpCode) && AtLeast(err.httpCode, 400) && Less(err.httpCode, 500)
    ensures AtLeast(c, 400) && Less(c, 500)
  {
    if Truthy(err.httpCode) && AtLeast(err.httpCode, 400) && Less(err.httpCode, 500) then err.httpCode else Num(400)
  }

  /** The code of an error thrown by `process`: a truthy `_httpCode` of at least 500, else 500. */
  function ProcessCode(err: JsError): (c: Value)
    ensures c == err.httpCode || c == Num(500)
    ensures c == err.httpCode <==> Truthy(err.httpCode) && AtLeast(err.httpCode, 500)
    ensures AtLeast(c, 500)
  {
    if Truthy(err.httpCode) && AtLeast(err.httpCode, 500) then err.httpCode else Num(500)
  }

  /** The code of a success: an object result's truthy `_httpCode` below 400, else 200. */
  function SuccessCode(result: Value): (c: Value)
    requires !result.Null?
    ensures c == Num(200) || (result.Obj? && c == Property(result, "_httpCode"))
    ensures result.Obj? && Truthy(Property(result, "_httpCode")) && Less(Property(result, "_httpCode"), 400) ==>
              c == Property(result, "_httpCode")
    ensures !(result.Obj? && Truthy(Property(result, "_httpCode")) && Less(Property(result, "_httpCode"), 400)) ==>
              c == Num(200)
    ensures Less(c, 400)
  {
    if IsObject(result) && Truthy(Property(result, "_httpCode")) && Less(Property(result, "_httpCode"), 400)
    then Property(result, "_httpCode") else Num(200)
  }

  /** The headers of a success: an object result's `_headers` when that is an object, else `{}`. */
  function SuccessHeaders(result: Value): (h: Value)
    requires !result.Null?
    ensures h.Obj?
    ensures result.Obj? && Property(result, "_headers").Obj? ==> h == Property(result, "_headers")
    ensures !(result.Obj? && Property(result, "_headers").Obj?) ==> h == Obj(map[])
  {
    var hs := if IsObject(result) then Property(result, "_headers") else Undefined;
    if IsObject(result) && Truthy(hs) && IsObject(hs) then hs else Obj(map[])
  }

  /**
   * The success envelope as written: `_isObject(null)` holds, so a null
   * result reaches `result._httpCode` and the TypeError rejects the dispatch.
   */
  function SuccessAsWritten(result: Value): (r: Result<LegacyResponse, JsError>)
    ensures result.Null? <==> r.Err?
    ensures !result.Null? ==> r == Ok(Success(SuccessCode(result), SuccessHeaders(result), result))
  {
    if result.Null? then Err(NullRead("_httpCode"))
    else Ok(Success(SuccessCode(result), SuccessHeaders(result), result))
  }

  /**
   * The success envelope with null read as "no hints": code 200 and no
   * headers; otherwise the one written. The body is always the raw result.
   */
  function SuccessEnvelope(result: Value): (r: LegacyResponse)
    ensures r.Success? && r.body == result && r.headers.Obj? && Less(r.code, 400)
    ensures result.Null? ==> r == Success(Num(200), Obj(map[]), Null)
    ensures !result.Null? ==> SuccessAsWritten(result) == Ok(r)
  {
    if result.Null? then Success(Num(200), Obj(map[]), Null)
    else Success(SuccessCode(result), SuccessHeaders(result), result)
  }

  /** The process result null: the as-written dispatch rejects, the envelope above answers 200. */
  lemma NullResultRejects()
    ensures SuccessAsWritten(Null) == Err(NullRead("_httpCode"))
    ensures SuccessEnvelope(Null) == Success(Num(200), Obj(map[]), Null)
  {
  }

  // The struct check

  /** `struct(...args)` and `Schema.validate(data)`, kept abstract. */
  datatype StructResult =
    | DefinitionThrows(error: JsError)       // `struct(...args)` throws
    | Invalid(reason: Value, message: string) // `validate` reports an error
    | Parsed(data: Value)                     // the parsed data, defaults filled in
  type Schema = (seq<Value>, Value) -> StructResult

  /** The arguments given to `struct`: an array's items, or the struct alone. */
  function SchemaArgs(struct: Value): (args: seq<Value>)
    ensures !struct.Arr? ==> args == [struct]
    ensures struct.Arr? ==> args == struct.items
  {
    if struct.Arr? then struct.items else [struct]
  }

  /**
   * `_validateStruct` on the data: a falsy struct checks nothing; an invalid
   * value throws an APIViewError with `error.reason || error.message` and the
   * code 'DATA_INVALID', which lies outside the table; a valid one gives the
   * parsed data.
   */
  function StructCheck(struct: Value, schema: Schema, data: Value): (r: Result<Value, JsError>)
    ensures !Truthy(struct) ==> r == Ok(data)
    ensures Truthy(struct) ==>
              match schema(SchemaArgs(struct), data)
              case DefinitionThrows(e) => r == Err(e)
              case Invalid(reason, message) =>
                && r.Err? && r.error.name == "APIViewError" && r.error.code == Str("DATA_INVALID")
                && r.error.httpCode == Undefined
                && (forall name :: name in LegacyError.Codes ==> r.error.code != Num(LegacyError.Codes[name]))
                && r.error == LegacyError.NewAPIViewError(Or(reason, Str(message)), Str("DATA_INVALID"))
              case Parsed(d) => r == Ok(d)
  {
    if !Truthy(struct) then Ok(data)
    else
      match schema(SchemaArgs(struct), data)
      case DefinitionThrows(e) => Err(e)
      case Invalid(reason, message) =>
        Err(LegacyError.NewAPIViewError(Or(reason, Str(message)), Str("DATA_INVALID")))
      case Parsed(d) => Ok(d)
  }

  /** A struct error carries no `_httpCode`, so the dispatcher answers it with 400. */
  lemma StructErrorIs400(struct: Value, schema: Schema, data: Value)
    requires Truthy(struct) && schema(SchemaArgs(struct), data).Invalid?
    ensures StructCheck(struct, schema, data).Err?
    ensures ValidateCode(StructCheck(struct, schema, data).error) == Num(400)
  {
  }

  // The dispatch stages

  /** The messages of the TypeError that calling a non-callable `validate` or `process` throws. */
  const ValidateNotAFunction: string := "apiController.validate is not a function"
  const ProcessNotAFunction: string := "apiController.process is not a function"

  /** `if (m) await m(data, entityId)`: an absent member is skipped, a present non-callable throws. */
  function CallIfPresent(m: LegacyMember, data: Value, entityId: Value, notAFunction: string): (c: Completion)
    ensures !Present(m) ==> c == Returns(Undefined)
    ensures m.Callable? ==> c == m.run(data, entityId)
    ensures m.NotCallable? && Truthy(m.value) ==> c == Throws(TypeError(notAFunction))
  {
    match m
    case Callable(run) => run(data, entityId)
    case NotCallable(v) => if Truthy(v) then Throws(TypeError(notAFunction)) else Returns(Undefined)
  }

  /** How the stages before the success envelope end. */
  datatype StagesEnd =
    | Early(response: LegacyResponse)      // a stage returned an error envelope
    | Processed(data: Value, result: Value) // `process` returned, with the data it was given

  /**
   * The lookup stage: the handler when it is found and has a truthy
   * `process`, else the error envelope `{ code: 500, message }`.
   */
  function Lookup(host: Host<LegacyHandler>, req: LegacyRequest): (r: Result<LegacyHandler, LegacyResponse>)
    ensures var found := GetController(Fetcher(req.entity, req.action, req.methodName, req.entityId), host);
            && (r.Ok? <==> found.Ok? && Present(found.value.process))
            && (r.Ok? ==> r.value == found.value)
            && (found.Err? ==> r == Err(Failure(Num(500), found.error.message)))
            && (found.Ok? && !Present(found.value.process) ==> r == Err(Failure(Num(500), Str("Method 'process' not found"))))
  {
    match GetController(Fetcher(req.entity, req.action, req.methodName, req.entityId), host)
    case Err(e) => Err(Failure(Num(500), e.message))
    case Ok(h) =>
      if !Present(h.process) then
        Err(Failure(Num(500), LegacyError.Raise("Method 'process' not found", "PROCESS_METHOD_NOT_FOUND").message))
      else Ok(h)
  }

  /**
   * Every stage before the success envelope, with their early returns: an
   * early return is always an error envelope with a code of at least 400, and
   * `process` returns only for a found handler, on the data after the struct
   * check.
   */
  function Stages(host: Host<LegacyHandler>, req: LegacyRequest, schema: Schema): (e: StagesEnd)
    ensures e.Early? ==> e.response.Failure? && AtLeast(e.response.code, 400)
    ensures e.Processed? ==> Lookup(host, req).Ok? && e.data == DataAfter(host, req, schema)
    ensures e.Processed? ==>
              CallIfPresent(Lookup(host, req).value.process, e.data, req.entityId, ProcessNotAFunction) == Returns(e.result)
  {
    match Lookup(host, req)
    case Err(failure) => Early(failure)
    case Ok(h) =>
      match StructCheck(h.struct, schema, req.data)
      case Err(e) => Early(Failure(ValidateCode(e), Or(e.message, Str("data invalid"))))
      case Ok(data) =>
        match CallIfPresent(h.validate, data, req.entityId, ValidateNotAFunction)
        case Throws(e) => Early(Failure(ValidateCode(e), Or(e.message, Str("data invalid"))))
        case Returns(_) =>
          match CallIfPresent(h.process, data, req.entityId, ProcessNotAFunction)
          case Throws(e) => Early(Failure(ProcessCode(e), Or(e.message, Str("internal server error"))))
          case Returns(result) => Processed(data, result)
  }

  /**
   * What dispatch resolves to, with the null-safe success envelope: error
   * envelopes have a code of at least 400, successes one below 400.
   */
  function Outcome(host: Host<LegacyHandler>, req: LegacyRequest, schema: Schema): (r: LegacyResponse)
    ensures r.Failure? ==> AtLeast(r.code, 400)
    ensures r.Success? ==> Less(r.code, 400)
  {
    match Stages(host, req, schema)
    case Early(response) => response
    case Processed(_, result) => SuccessEnvelope(result)
  }

  /**
   * What dispatch resolves to as written; Err is a rejected promise. It
   * rejects exactly when `process` resolves to null, with the TypeError of
   * reading `_httpCode`, and otherwise agrees with Outcome.
   */
  function OutcomeAsWritten(host: Host<LegacyHandler>, req: LegacyRequest, schema: Schema): (r: Result<LegacyResponse, JsError>)
    ensures r.Err? <==> Stages(host, req, schema).Processed? && Stages(host, req, schema).result.Null?
    ensures r.Err? ==> r.error == NullRead("_httpCode")
    ensures r.Ok? ==> r.value == Outcome(host, req, schema)
  {
    match Stages(host, req, schema)
    case Early(response) => Ok(response)
    case Processed(_, result) => SuccessAsWritten(result)
  }

  /** The data field after dispatch: the parsed data once the struct check has passed, else as constructed. */
  function DataAfter(host: Host<LegacyHandler>, req: LegacyRequest, schema: Schema): (d: Value)
    ensures Lookup(host, req).Err? ==> d == req.data
    ensures Lookup(host, req).Ok? && StructCheck(Lookup(host, req).value.struct, schema, req.data).Err? ==> d == req.data
    ensures Lookup(host, req).Ok? && StructCheck(Lookup(host, req).value.struct, schema, req.data).Ok? ==>
              d == StructCheck(Lookup(host, req).value.struct, schema, req.data).value
    ensures Lookup(host, req).Err? || !Truthy(Lookup(host, req).value.struct) ==> d == req.data
  {
    match Lookup(host, req)
    case Err(_) => req.data
    case Ok(h) =>
      match StructCheck(h.struct, schema, req.data)
      case Err(_) => req.data
      case Ok(data) => data
  }

  // Properties of a legacy dispatch

  /**
   * The code tells the stage: an error envelope from the lookup is exactly
   * 500, one from the struct check or `validate` lies in [400, 500), one from
   * `process` is at least 500, and a success is below 400.
   */
  lemma CodeBands(host: Host<LegacyHandler>, req: LegacyRequest, schema: Schema)
    ensures var out := Outcome(host, req, schema);
            Lookup(host, req).Err? ==> out == Lookup(host, req).error && out.code == Num(500)
    ensures var out := Outcome(host, req, schema);
            var lookup := Lookup(host, req);
            lookup.Ok? && StructCheck(lookup.value.struct, schema, req.data).Err? ==>
              out.Failure? && AtLeast(out.code, 400) && Less(out.code, 500)
    ensures var out := Outcome(host, req, schema);
            var lookup := Lookup(host, req);
            lookup.Ok? && StructCheck(lookup.value.struct, schema, req.data).Ok? &&
            CallIfPresent(lookup.value.validate, StructCheck(lookup.value.struct, schema, req.data).value, req.entityId, ValidateNotAFunction).Throws? ==>
              out.Failure? && AtLeast(out.code, 400) && Less(out.code, 500)
    ensures var out := Outcome(host, req, schema);
            var lookup := Lookup(host, req);
            var data := if lookup.Ok? && StructCheck(lookup.value.struct, schema, req.data).Ok?
                        then StructCheck(lookup.value.struct, schema, req.data).value else req.data;
            lookup.Ok? && StructCheck(lookup.value.struct, schema, req.data).Ok? &&
            CallIfPresent(lookup.value.validate, data, req.entityId, ValidateNotAFunction).Returns? &&
            CallIfPresent(lookup.value.process, data, req.entityId, ProcessNotAFunction).Throws? ==>
              out.Failure? && AtLeast(out.code, 500)
    ensures var out := Outcome(host, req, schema);
            var lookup := Lookup(host, req);
            var data := if lookup.Ok? && StructCheck(lookup.value.struct, schema, req.data).Ok?
                        then StructCheck(lookup.value.struct, schema, req.data).value else req.data;
            lookup.Ok? && StructCheck(lookup.value.struct, schema, req.data).Ok? &&
            CallIfPresent(lookup.value.validate, data, req.entityId, ValidateNotAFunction).Returns? &&
            CallIfPresent(lookup.value.process, data, req.entityId, ProcessNotAFunction).Returns? ==>
              out.Success? && Less(out.code, 400)
  {
  }

  /** A lookup failure answers 500 with the lookup's message, and no handler member is called. */
  lemma LookupFailure(host: Host<LegacyHandler>, req: LegacyRequest, schema: Schema)
    requires GetController(Fetcher(req.entity, req.action, req.methodName, req.entityId), host).Err?
    ensures Outcome(host, req, schema) ==
            Failure(Num(500), GetController(Fetcher(req.entity, req.action, req.methodName, req.entityId), host).error.message)
    ensures DataAfter(host, req, schema) == req.data
  {
  }

  /** `validate` runs on the struct's parsed data, and when it throws its code band and message are those of the validate stage. */
  lemma ValidateFailure(host: Host<LegacyHandler>, req: LegacyRequest, schema: Schema, h: LegacyHandler, data: Value, err: JsError)
    requires Lookup(host, req) == Ok(h)
    requires StructCheck(h.struct, schema, req.data) == Ok(data)
    requires h.validate.Callable? && h.validate.run(data, req.entityId) == Throws(err)
    ensures Outcome(host, req, schema) == Failure(ValidateCode(err), Or(err.message, Str("data invalid")))
    ensures DataAfter(host, req, schema) == data
  {
  }

  /** `process` runs after `validate` on the same data; its throw gives the process stage's envelope. */
  lemma ProcessFailure(host: Host<LegacyHandler>, req: LegacyRequest, schema: Schema, h: LegacyHandler, data: Value, err: JsError)
    requires Lookup(host, req) == Ok(h)
    requires StructCheck(h.struct, schema, req.data) == Ok(data)
    requires CallIfPresent(h.validate, data, req.entityId, ValidateNotAFunction).Returns?
    requires h.process.Callable? && h.process.run(data, req.entityId) == Throws(err)
    ensures Outcome(host, req, schema) == Failure(ProcessCode(err), Or(err.message, Str("internal server error")))
  {
  }

  /**
   * `validate` lets the parsed data through and `process` returns `result`:
   * the answer is the success envelope built from `result`, and as written
   * it is that envelope unless `result` is null.
   */
  lemma Succeeds(host: Host<LegacyHandler>, req: LegacyRequest, schema: Schema, h: LegacyHandler, data: Value, result: Value)
    requires Lookup(host, req) == Ok(h)
    requires StructCheck(h.struct, schema, req.data) == Ok(data)
    requires CallIfPresent(h.validate, data, req.entityId, ValidateNotAFunction).Returns?
    requires h.process.Callable? && h.process.run(data, req.entityId) == Returns(result)
    ensures Outcome(host, req, schema) == SuccessEnvelope(result)
    ensures OutcomeAsWritten(host, req, schema) == SuccessAsWritten(result)
  {
  }

  /** A present `process` that is not callable fails in the process stage with the runtime's TypeError. */
  lemma ProcessNotCallable(host: Host<LegacyHandler>, req: LegacyRequest, schema: Schema, h: LegacyHandler, data: Value)
    requires Lookup(host, req) == Ok(h)
    requires StructCheck(h.struct, schema, req.data) == Ok(data)
    requires CallIfPresent(h.validate, data, req.entityId, ValidateNotAFunction).Returns?
    requires h.process.NotCallable?
    ensures Outcome(host, req, schema) == Failure(Num(500), Str(ProcessNotAFunction))
  {
  }

  /** A struct failure stops before `validate` and `process`, with the validate stage's code band. */
  lemma StructFailure(host: Host<LegacyHandler>, req: LegacyRequest, schema: Schema, h: LegacyHandler)
    requires Lookup(host, req) == Ok(h)
    requires StructCheck(h.struct, schema, req.data).Err?
    ensures var e := StructCheck(h.struct, schema, req.data).error;
            Outcome(host, req, schema) == Failure(ValidateCode(e), Or(e.message, Str("data invalid")))
    ensures DataAfter(host, req, schema) == req.data
  {
  }

  /** The legacy dispatcher: the stored request fields, of which only `data` changes. */
  class LegacyAPIView {
    const entity: string
    const action: string
    const methodName: string
    const entityId: Value
    var data: Value

    function Request(): LegacyRequest
      reads this
    {
      LegacyRequest(entity, action, methodName, entityId, data)
    }

    /** The constructor's assignments, once validation has passed. */
    constructor (requestData: Value)
      requires Validate(requestData).Ok?
      ensures Request() == RequestOf(requestData)
    {
      var q := RequestOf(requestData);
      entity, action, methodName, entityId, data := q.entity, q.action, q.methodName, q.entityId, q.data;
    }

    /** `new APIView(requestData)`: throws what validation throws, else a new object. */
    static method Create(requestData: Value) returns (r: Result<LegacyAPIView, JsError>)
      ensures Validate(requestData).Err? ==> r == Err(Validate(requestData).error)
      ensures Validate(requestData).Ok? ==> r.Ok? && fresh(r.value) && r.value.Request() == RequestOf(requestData)
    {
      var checked := Validate(requestData);
      if checked.Err? {
        r := Err(checked.error);
      } else {
        var view := new LegacyAPIView(requestData);
        r := Ok(view);
      }
    }

    /** `_validateStruct(api)`: on success the data is replaced by the parsed data; an error is thrown. */
    method ValidateStruct(api: LegacyHandler, schema: Schema) returns (thrown: Option<JsError>)
      modifies this
      ensures StructCheck(api.struct, schema, old(data)).Ok? ==>
                thrown == None && data == StructCheck(api.struct, schema, old(data)).value
      ensures StructCheck(api.struct, schema, old(data)).Err? ==>
                thrown == Some(StructCheck(api.struct, schema, old(data)).error) && data == old(data)
    {
      thrown := None;
      if !Truthy(api.struct) {
        return;
      }
      var args := SchemaArgs(api.struct);
      var checked := schema(args, data);
      if checked.DefinitionThrows? {
        thrown := Some(checked.error);
      } else if checked.Invalid? {
        thrown := Some(LegacyError.NewAPIViewError(Or(checked.reason, Str(checked.message)), Str("DATA_INVALID")));
      } else {
        data := checked.data;
      }
    }

    /**
     * `dispatch()`: the stages with their early returns, as written; it
     * rejects (Err) only when `process` resolves to null.
     */
    method Dispatch(host: Host<LegacyHandler>, schema: Schema) returns (r: Result<LegacyResponse, JsError>)
      modifies this
      ensures r == OutcomeAsWritten(host, old(Request()), schema)
      ensures r.Ok? ==> r.value == Outcome(host, old(Request()), schema)
      ensures data == DataAfter(host, old(Request()), schema)
    {
      var controller := GetController(Fetcher(entity, action, methodName, entityId), host);
      if controller.Err? {
        return Ok(Failure(Num(500), controller.error.message));
      }
      var api := controller.value;
      if !Present(api.process) {
        return Ok(Failure(Num(500), LegacyError.Raise("Method 'process' not found", "PROCESS_METHOD_NOT_FOUND").message));
      }
      var thrown := ValidateStruct(api, schema);
      if thrown.Some? {
        return Ok(Failure(ValidateCode(thrown.value), Or(thrown.value.message, Str("data invalid"))));
      }
      var validated := CallIfPresent(api.validate, data, entityId, ValidateNotAFunction);
      if validated.Throws? {
        return Ok(Failure(ValidateCode(validated.error), Or(validated.error.message, Str("data invalid"))));
      }
      var processed := CallIfPresent(api.process, data, entityId, ProcessNotAFunction);
      if processed.Throws? {
        return Ok(Failure(ProcessCode(processed.error), Or(processed.error.message, Str("internal server error"))));
      }
      r := SuccessAsWritten(processed.value);
    }
  }
}
