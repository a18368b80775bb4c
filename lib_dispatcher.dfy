/**
 * The newer generation's dispatcher (lib/dispatcher.js): it validates the
 * request envelope on construction, then runs the stages
 * prepare -> validate -> process -> response on a fresh handler instance.
 */
module LibDispatcher {
  import opened JsValues
  import opened Environment
  import opened LibApiView
  import opened LibFetcher
  import LibError

  /** The envelope passes every check of `_validateRequestData`. */
  predicate Acceptable(rd: Value) {
    && rd.Obj?
    && Property(rd, "entity").Str?
    && Property(rd, "action").Str?
    && Property(rd, "method").Str?
    && AbsentOrObject(Property(rd, "headers"))
    && AbsentOrObject(Property(rd, "cookies"))
  }

  /**
   * `_validateRequestData`: the request must be an object (1), then entity (2),
   * action (3) and method (4) must be strings, then headers (5) and cookies (6),
   * when present, objects; the first failure is thrown. As `_isObject(null)`
   * holds, a null request gets past the first check and reading its `entity`
   * throws a TypeError.
   */
  function ValidateRequestData(rd: Value): (r: Result<Value, JsError>)
    ensures r.Ok? <==> Acceptable(rd)
    ensures r.Ok? ==> r.value == rd
    ensures r.Err? && !rd.Null? ==> r.error.name == "APIViewError"
    ensures !IsObject(rd) ==> r.Err? && r.error.code == Num(1)
    ensures rd.Null? ==> r == Err(NullRead("entity"))
    ensures rd.Obj? && !Property(rd, "entity").Str? ==> r.Err? && r.error.code == Num(2)
    ensures rd.Obj? && Property(rd, "entity").Str? && !Property(rd, "action").Str? ==>
              r.Err? && r.error.code == Num(3)
    ensures rd.Obj? && Property(rd, "entity").Str? && Property(rd, "action").Str? && !Property(rd, "method").Str? ==>
              r.Err? && r.error.code == Num(4)
    ensures rd.Obj? && Property(rd, "entity").Str? && Property(rd, "action").Str? && Property(rd, "method").Str? &&
            !AbsentOrObject(Property(rd, "headers")) ==>
              r.Err? && r.error.code == Num(5)
    ensures rd.Obj? && Property(rd, "entity").Str? && Property(rd, "action").Str? && Property(rd, "method").Str? &&
            AbsentOrObject(Property(rd, "headers")) && !AbsentOrObject(Property(rd, "cookies")) ==>
              r.Err? && r.error.code == Num(6)
  {
    if !IsObject(rd) then
      Err(LibError.Raise("request data must be an Object", "INVALID_REQUEST_DATA"))
    else if rd.Null? then
      Err(NullRead("entity"))
    else if !Property(rd, "entity").Str? then
      Err(LibError.Raise("entity must be an String", "INVALID_ENTITY"))
    else if !Property(rd, "action").Str? then
      Err(LibError.Raise("action must be an String", "INVALID_ACTION"))
    else if !Property(rd, "method").Str? then
      Err(LibError.Raise("method must be an String", "INVALID_METHOD"))
    else if !AbsentOrObject(Property(rd, "headers")) then
      Err(LibError.Raise("headers must be an Object", "INVALID_HEADERS"))
    else if !AbsentOrObject(Property(rd, "cookies")) then
      Err(LibError.Raise("cookies must be an Object", "INVALID_COOKIES"))
    else
      Ok(rd)
  }

  /** The fields a Dispatcher keeps from its request. */
  datatype DispatchRequest = DispatchRequest(
    entity: string, action: string, methodName: string, entityId: Value,
    data: Value, headers: Value, cookies: Value)

  /**
   * The fields the constructor stores from a valid request: the three names,
   * the entity id as given, and data, headers and cookies with `{}` in place
   * of a falsy value.
   */
  function RequestOf(rd: Value): (d: DispatchRequest)
    requires ValidateRequestData(rd).Ok?
    ensures Str(d.entity) == Property(rd, "entity") && Str(d.action) == Property(rd, "action")
    ensures Str(d.methodName) == Property(rd, "method") && d.entityId == Property(rd, "entityId")
    ensures Truthy(Property(rd, "data")) ==> d.data == Property(rd, "data")
    ensures !Truthy(Property(rd, "data")) ==> d.data == Obj(map[])
    ensures d.headers.Obj? && d.cookies.Obj?
    ensures Property(rd, "headers").Obj? ==> d.headers == Property(rd, "headers")
    ensures !Property(rd, "headers").Obj? ==> d.headers == Obj(map[])
    ensures Property(rd, "cookies").Obj? ==> d.cookies == Property(rd, "cookies")
    ensures !Property(rd, "cookies").Obj? ==> d.cookies == Obj(map[])
  {
    DispatchRequest(
      Property(rd, "entity").s, Property(rd, "action").s, Property(rd, "method").s,
      Property(rd, "entityId"),
      Or(Property(rd, "data"), Obj(map[])),
      Or(Property(rd, "headers"), Obj(map[])),
      Or(Property(rd, "cookies"), Obj(map[])))
  }

  /** `this.entityId ? [this.entityId] : []` */
  function PathParametersOf(entityId: Value): (p: Value)
    ensures Truthy(entityId) ==> p == Arr([entityId])
    ensures !Truthy(entityId) ==> p == Arr([])
  {
    if Truthy(entityId) then Arr([entityId]) else Arr([])
  }

  /** The request fields `prepare` stores on a handler it found. */
  function Populated(req: DispatchRequest): (s: RequestState)
    ensures s.entity == Str(req.entity)
    ensures s.data == req.data && s.headers == req.headers && s.cookies == req.cookies
    ensures s.pathParameters == (if Truthy(req.entityId) then Arr([req.entityId]) else Arr([]))
  {
    RequestState(Str(req.entity), req.data, PathParametersOf(req.entityId), req.headers, req.cookies)
  }

  /** The handler instance's state together with the dispatcher's `hasError` flag. */
  datatype PipelineState = PipelineState(behaviour: Behaviour, request: RequestState, response: ResponseState, hasError: bool)

  /**
   * `setResponseError(message, httpCode)` on a response: the code is written
   * only when none is set, the body is always replaced by `{ message }`.
   */
  function ErrorResponse(r: ResponseState, message: Value, httpCode: int): (e: ResponseState)
    ensures Truthy(r.code) ==> e.code == r.code
    ensures !Truthy(r.code) ==> e.code == Num(httpCode)
    ensures e.body == MessageBody(message)
    ensures e.headers == r.headers && e.cookies == r.cookies
  {
    r.(code := if Truthy(r.code) then r.code else Num(httpCode), body := MessageBody(message))
  }

  /**
   * The state after `prepare`: a found handler gets the request fields and a
   * fresh response; a failed lookup leaves a base APIView answering 500 with
   * the lookup's message, and the flag set.
   */
  function Prepared(host: Host<HandlerClass>, req: DispatchRequest, hasError: bool): (s: PipelineState)
    ensures var lookup := ResolveController(Fetcher(req.entity, req.action, req.methodName), host);
            && (s.hasError <==> hasError || lookup.Err?)
            && (lookup.Ok? ==>
                  s.behaviour == lookup.value.behaviour && s.request == Populated(req) && s.response == FreshResponse)
            && (lookup.Err? ==>
                  && s.behaviour == BaseBehaviour && s.request == EmptyRequest
                  && s.response == ResponseState(Num(500), MessageBody(lookup.error.message), map[], map[]))
  {
    match ResolveController(Fetcher(req.entity, req.action, req.methodName), host)
    case Ok(cls) => PipelineState(cls.behaviour, Populated(req), FreshResponse, hasError)
    case Err(e) => PipelineState(BaseBehaviour, EmptyRequest, ErrorResponse(FreshResponse, e.message, 500), true)
  }

  /** Calling member `m`: a function runs; anything else throws the runtime's TypeError. */
  function Call(m: Member, request: RequestState, notAFunction: string): Step {
    match m
    case Function(run) => run(request)
    case NotFunction(_) => Step([], Throws(TypeError(notAFunction)))
  }

  /** A handler step runs; a throw is turned into an error response. */
  function AfterStep(s: PipelineState, step: Step, defaultMessage: string, httpCode: int): PipelineState {
    var response := ApplyEffects(s.response, step.effects);
    match step.completion
    case Returns(_) => s.(response := response)
    case Throws(err) => s.(response := ErrorResponse(response, Or(err.message, Str(defaultMessage)), httpCode), hasError := true)
  }

  /**
   * The state after the `validate` stage: nothing changes after an error or
   * when `validate` is no function; otherwise its setter calls apply, and a
   * throw sets the flag, writes 400 unless a code is set, and replaces the
   * body by `{ message: err.message || 'data invalid' }`.
   */
  function Validated(s: PipelineState): (r: PipelineState)
    ensures r.behaviour == s.behaviour && r.request == s.request
    ensures s.hasError || !s.behaviour.validate.Function? ==> r == s
    ensures !s.hasError && s.behaviour.validate.Function? ==>
              var step := s.behaviour.validate.run(s.request);
              var after := ApplyEffects(s.response, step.effects);
              && (r.hasError <==> step.completion.Throws?)
              && (step.completion.Returns? ==> r.response == after)
              && (step.completion.Throws? ==>
                    r.response == after.(code := Or(after.code, Num(400)),
                                         body := MessageBody(Or(step.completion.error.message, Str("data invalid")))))
  {
    if s.hasError || !s.behaviour.validate.Function? then s
    else AfterStep(s, s.behaviour.validate.run(s.request), "data invalid", 400)
  }

  /**
   * The state after the `process` stage: nothing changes after an error;
   * otherwise its setter calls apply, and a throw sets the flag, writes 500
   * unless a code is set, and replaces the body by
   * `{ message: err.message || 'internal server error' }`.
   */
  function Processed(s: PipelineState): (r: PipelineState)
    ensures r.behaviour == s.behaviour && r.request == s.request
    ensures s.hasError ==> r == s
    ensures !s.hasError ==>
              var step := Call(s.behaviour.process, s.request, "this.api.process is not a function");
              var after := ApplyEffects(s.response, step.effects);
              && (r.hasError <==> step.completion.Throws?)
              && (step.completion.Returns? ==> r.response == after)
              && (step.completion.Throws? ==>
                    r.response == after.(code := Or(after.code, Num(500)),
                                         body := MessageBody(Or(step.completion.error.message, Str("internal server error")))))
  {
    if s.hasError then s
    else AfterStep(s, Call(s.behaviour.process, s.request, "this.api.process is not a function"), "internal server error", 500)
  }

  /** `response()`: 200 when no code is set, else the response as it is; either way a code is set. */
  function Finalized(r: ResponseState): (f: ResponseState)
    ensures Truthy(f.code)
    ensures Truthy(r.code) ==> f == r
    ensures !Truthy(r.code) ==> f.code == Num(200)
    ensures f.body == r.body && f.headers == r.headers && f.cookies == r.cookies
  {
    if Truthy(r.code) then r else r.(code := Num(200))
  }

  /**
   * The state after `dispatch()`, from the flag the dispatcher starts with:
   * the handler and request as `prepare` left them, and a response with a code.
   */
  function Dispatched(host: Host<HandlerClass>, req: DispatchRequest, hasError: bool): (s: PipelineState)
    ensures s.behaviour == Prepared(host, req, hasError).behaviour && s.request == Prepared(host, req, hasError).request
    ensures Truthy(s.response.code)
    ensures hasError ==> s.hasError
  {
    var processed := Processed(Validated(Prepared(host, req, hasError)));
    processed.(response := Finalized(processed.response))
  }

  /** What `dispatch()` returns: every answer carries a code. */
  function DispatchResult(host: Host<HandlerClass>, req: DispatchRequest, hasError: bool): (r: ResponseState)
    ensures Truthy(r.code)
  {
    Dispatched(host, req, hasError).response
  }

  class Dispatcher {
    const entity: string
    const action: string
    const methodName: string
    const entityId: Value
    const data: Value
    const headers: Value
    const cookies: Value
    /** `this.api`: null until `prepare` has run. */
    var api: APIView?
    var hasError: bool

    function Request(): DispatchRequest {
      DispatchRequest(entity, action, methodName, entityId, data, headers, cookies)
    }

    ghost function State(): PipelineState
      reads this, api
      requires api != null
    {
      PipelineState(api.behaviour, api.request, api.response, hasError)
    }

    /** The constructor's assignments, once validation has passed. */
    constructor (requestData: Value)
      requires ValidateRequestData(requestData).Ok?
      ensures Request() == RequestOf(requestData) && api == null && !hasError
    {
      var d := RequestOf(requestData);
      entity, action, methodName, entityId := d.entity, d.action, d.methodName, d.entityId;
      data, headers, cookies := d.data, d.headers, d.cookies;
      api := null;
      hasError := false;
    }

    /** `new Dispatcher(requestData)`: throws what validation throws, else a new dispatcher. */
    static method Create(requestData: Value) returns (r: Result<Dispatcher, JsError>)
      ensures ValidateRequestData(requestData).Err? ==> r == Err(ValidateRequestData(requestData).error)
      ensures ValidateRequestData(requestData).Ok? ==>
                && r.Ok? && fresh(r.value)
                && r.value.Request() == RequestOf(requestData) && r.value.api == null && !r.value.hasError
    {
      var checked := ValidateRequestData(requestData);
      if checked.Err? {
        r := Err(checked.error);
      } else {
        var d := new Dispatcher(requestData);
        r := Ok(d);
      }
    }

    /**
     * `prepare()`: a fresh handler instance with the request fields set, or,
     * when the lookup fails, a fresh base APIView carrying a 500 error.
     */
    method Prepare(host: Host<HandlerClass>)
      modifies this
      ensures api != null && fresh(api)
      ensures State() == Prepared(host, Request(), old(hasError))
    {
      var controller := ApiController(Fetcher(entity, action, methodName), host);
      if controller.Ok? {
        var instance := controller.value;
        api := instance;
        instance.SetData(data);
        instance.SetEntity(Str(entity));
        instance.SetPathParameters(PathParametersOf(entityId));
        instance.SetRequestHeaders(headers);
        instance.SetRequestCookies(cookies);
      } else {
        api := new APIView();
        SetResponseError(controller.error.message, 500);
      }
    }

    /** `validate()`: calls the handler's `validate` when it is a function and no error is recorded. */
    method Validate()
      requires api != null
      modifies this, api
      ensures api == old(api)
      ensures State() == Validated(old(State()))
    {
      if hasError || !api.behaviour.validate.Function? {
        return;
      }
      var step := api.behaviour.validate.run(api.request);
      api.Perform(step.effects);
      if step.completion.Throws? {
        SetResponseError(Or(step.completion.error.message, Str("data invalid")), 400);
      }
    }

    /** `process()`: calls the handler's `process` when no error is recorded. */
    method Process()
      requires api != null
      modifies this, api
      ensures api == old(api)
      ensures State() == Processed(old(State()))
    {
      if hasError {
        return;
      }
      var step := Call(api.behaviour.process, api.request, "this.api.process is not a function");
      api.Perform(step.effects);
      if step.completion.Throws? {
        SetResponseError(Or(step.completion.error.message, Str("internal server error")), 500);
      }
    }

    /** `setResponseError(message, httpCode)` */
    method SetResponseError(message: Value, httpCode: int)
      requires api != null
      modifies this, api
      ensures api == old(api) && hasError
      ensures api.request == old(api.request)
      ensures api.response == ErrorResponse(old(api.response), message, httpCode)
    {
      hasError := true;
      var self: APIView;
      if !Truthy(api.response.code) {
        self := api.SetCode(Num(httpCode));
      }
      self := api.SetBody(MessageBody(message));
    }

    /** `response()`: defaults the code to 200 and hands out the handler's response. */
    method Response() returns (r: ResponseState)
      requires api != null
      modifies api
      ensures api.request == old(api.request)
      ensures api.response == Finalized(old(api.response))
      ensures r == api.response
    {
      if !Truthy(api.response.code) {
        var self := api.SetCode(Num(200));
      }
      r := api.response;
    }

    /** `dispatch()`: the four stages in order, on a handler instance of its own. */
    method Dispatch(host: Host<HandlerClass>) returns (r: ResponseState)
      modifies this
      ensures api != null && fresh(api)
      ensures State() == Dispatched(host, Request(), old(hasError))
      ensures r == api.response
      ensures r == DispatchResult(host, Request(), old(hasError))
    {
      Prepare(host);
      Validate();
      Process();
      r := Response();
    }
  }

  // Properties of a dispatch

  /** `validate` is a function and throws on the request. */
  predicate ValidateThrew(b: Behaviour, request: RequestState) {
    b.validate.Function? && b.validate.run(request).completion.Throws?
  }

  /** `process` throws on the request. */
  predicate ProcessThrew(b: Behaviour, request: RequestState) {
    Call(b.process, request, "this.api.process is not a function").completion.Throws?
  }

  /**
   * After a dispatch the flag is set exactly when it was set before, the
   * lookup failed, or, on a first dispatch with a found handler, `validate` or
   * `process` threw. Nothing ever clears it.
   */
  lemma ErrorFlagAfterDispatch(host: Host<HandlerClass>, req: DispatchRequest, hasError: bool)
    ensures var lookup := ResolveController(Fetcher(req.entity, req.action, req.methodName), host);
            Dispatched(host, req, hasError).hasError <==>
              || hasError
              || lookup.Err?
              || ValidateThrew(lookup.value.behaviour, Populated(req))
              || ProcessThrew(lookup.value.behaviour, Populated(req))
  {
  }

  /**
   * A failed lookup answers 500 with `{ message }` of the lookup error, with
   * no header or cookie, and validate and process play no part.
   */
  lemma LookupFailure(host: Host<HandlerClass>, req: DispatchRequest, hasError: bool)
    requires ResolveController(Fetcher(req.entity, req.action, req.methodName), host).Err?
    ensures DispatchResult(host, req, hasError) ==
            ResponseState(Num(500), MessageBody(ResolveController(Fetcher(req.entity, req.action, req.methodName), host).error.message), map[], map[])
  {
  }

  /**
   * When the handler's `validate` throws, the answer is what its setters
   * left, with the code they set or else 400 and the body
   * `{ message: err.message || 'data invalid' }`; `process` never runs.
   */
  lemma ValidateThrows(host: Host<HandlerClass>, req: DispatchRequest, cls: HandlerClass, run: RequestState -> Step, err: JsError)
    requires ResolveController(Fetcher(req.entity, req.action, req.methodName), host) == Ok(cls)
    requires cls.behaviour.validate == Function(run)
    requires run(Populated(req)).completion == Throws(err)
    ensures var after := ApplyEffects(FreshResponse, run(Populated(req)).effects);
            DispatchResult(host, req, false) ==
            ResponseState(Or(after.code, Num(400)), MessageBody(Or(err.message, Str("data invalid"))), after.headers, after.cookies)
  {
  }

  /** `validate` lets the request through after the setter calls `effects`: it is no function, or it returns. */
  predicate ValidatePasses(validate: Member, request: RequestState, effects: seq<Effect>) {
    if validate.Function? then validate.run(request).completion.Returns? && effects == validate.run(request).effects
    else effects == []
  }

  /**
   * When `validate` is no function or returns, and `process` throws, the
   * answer is what the setters of both left, with their code or else 500,
   * and `{ message: err.message || 'internal server error' }`.
   */
  lemma ProcessThrows(host: Host<HandlerClass>, req: DispatchRequest, cls: HandlerClass, validateEffects: seq<Effect>, run: RequestState -> Step, err: JsError)
    requires ResolveController(Fetcher(req.entity, req.action, req.methodName), host) == Ok(cls)
    requires ValidatePasses(cls.behaviour.validate, Populated(req), validateEffects)
    requires cls.behaviour.process == Function(run)
    requires run(Populated(req)).completion == Throws(err)
    ensures var after := ApplyEffects(FreshResponse, validateEffects + run(Populated(req)).effects);
            DispatchResult(host, req, false) ==
            ResponseState(Or(after.code, Num(500)), MessageBody(Or(err.message, Str("internal server error"))), after.headers, after.cookies)
  {
    ApplyEffectsAppend(FreshResponse, validateEffects, run(Populated(req)).effects);
  }

  /**
   * When neither `validate` nor `process` throws, the answer is what their
   * setters left, with code 200 if they set none.
   */
  lemma Succeeds(host: Host<HandlerClass>, req: DispatchRequest, cls: HandlerClass, validateEffects: seq<Effect>, run: RequestState -> Step)
    requires ResolveController(Fetcher(req.entity, req.action, req.methodName), host) == Ok(cls)
    requires ValidatePasses(cls.behaviour.validate, Populated(req), validateEffects)
    requires cls.behaviour.process == Function(run)
    requires run(Populated(req)).completion.Returns?
    ensures var after := ApplyEffects(FreshResponse, validateEffects + run(Populated(req)).effects);
            DispatchResult(host, req, false) == after.(code := Or(after.code, Num(200)))
  {
    ApplyEffectsAppend(FreshResponse, validateEffects, run(Populated(req)).effects);
  }

  /**
   * A handler whose `validate` sets code c and then throws is answered with
   * c, not 400: the dispatcher writes its code only when none is set.
   */
  lemma ValidateSetsCodeThenThrows(host: Host<HandlerClass>, req: DispatchRequest, cls: HandlerClass, run: RequestState -> Step, c: int, err: JsError)
    requires ResolveController(Fetcher(req.entity, req.action, req.methodName), host) == Ok(cls)
    requires cls.behaviour.validate == Function(run)
    requires run(Populated(req)) == Step([SetCode(Num(c))], Throws(err))
    requires c != 0
    ensures DispatchResult(host, req, false).code == Num(c)
  {
  }

  /**
   * A dispatcher whose earlier dispatch recorded an error never clears the
   * flag: dispatching it again, with the handler found, skips validate and
   * process and answers 200 with the fresh instance's empty response. (When
   * the lookup fails again, LookupFailure applies: 500.)
   */
  lemma RepeatedDispatchAfterError(host: Host<HandlerClass>, req: DispatchRequest)
    requires ResolveController(Fetcher(req.entity, req.action, req.methodName), host).Ok?
    ensures DispatchResult(host, req, true) == FreshResponse.(code := Num(200))
  {
  }

  /**
   * Two dispatches on one dispatcher whose handler's `validate` throws: the
   * first records the error, so the second, with the handler found again,
   * runs no handler code and answers 200.
   */
  lemma SecondDispatchAfterThrow(host: Host<HandlerClass>, req: DispatchRequest)
    requires ResolveController(Fetcher(req.entity, req.action, req.methodName), host).Ok?
    requires ValidateThrew(ResolveController(Fetcher(req.entity, req.action, req.methodName), host).value.behaviour, Populated(req))
    ensures Dispatched(host, req, false).hasError
    ensures DispatchResult(host, req, Dispatched(host, req, false).hasError) == FreshResponse.(code := Num(200))
  {
  }
}
