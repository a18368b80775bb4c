/**
 * The newer generation's handler base class (lib/api-view.js): inbound
 * request fields with getters and setters, and the outbound response state
 * `{code, body, headers, cookies}` with chainable setters.
 */
module LibApiView {
  import opened JsValues

  /** `this._request`: a field no setter has stored yet reads as undefined. */
  datatype RequestState = RequestState(entity: Value, data: Value, pathParameters: Value, headers: Value, cookies: Value)

  const EmptyRequest := RequestState(Undefined, Undefined, Undefined, Undefined, Undefined)

  /** `this._response` */
  datatype ResponseState = ResponseState(code: Value, body: Value, headers: map<string, Value>, cookies: map<string, Value>)

  const FreshResponse := ResponseState(Undefined, Undefined, map[], map[])

  /**
   * `{ ...base, ...over }`: every key of either map, with the value from
   * `over` where it has the key (last write wins) and from `base` otherwise.
   */
  function Merge(base: map<string, Value>, over: map<string, Value>): (r: map<string, Value>)
    ensures r.Keys == base.Keys + over.Keys
    ensures forall k :: k in over ==> r[k] == over[k]
    ensures forall k :: k in base && k !in over ==> r[k] == base[k]
  {
    base + over
  }

  /** Merging is associative, so two merges equal one merge of the merged arguments. */
  lemma MergeTwice(base: map<string, Value>, first: map<string, Value>, second: map<string, Value>)
    ensures Merge(Merge(base, first), second) == Merge(base, Merge(first, second))
  {
  }

  /** One call of a response setter, as handler code makes it. */
  datatype Effect =
    | SetCode(code: Value)
    | SetHeader(headerName: string, headerValue: Value)
    | SetHeaders(headers: map<string, Value>)
    | SetCookie(cookieName: string, cookieValue: Value)
    | SetCookies(cookies: map<string, Value>)
    | SetBody(body: Value)

  /** What the setter call `e` does to the response. */
  function ApplyEffect(r: ResponseState, e: Effect): (n: ResponseState)
    ensures e.SetCode? ==> n == r.(code := e.code)
    ensures e.SetHeader? ==> n == r.(headers := n.headers) && n.headers.Keys == r.headers.Keys + {e.headerName}
    ensures e.SetHeader? ==> n.headers[e.headerName] == e.headerValue
    ensures e.SetHeader? ==> forall k :: k in r.headers && k != e.headerName ==> n.headers[k] == r.headers[k]
    ensures e.SetHeaders? ==> n == r.(headers := Merge(r.headers, e.headers))
    ensures e.SetCookie? ==> n == r.(cookies := n.cookies) && n.cookies.Keys == r.cookies.Keys + {e.cookieName}
    ensures e.SetCookie? ==> n.cookies[e.cookieName] == e.cookieValue
    ensures e.SetCookie? ==> forall k :: k in r.cookies && k != e.cookieName ==> n.cookies[k] == r.cookies[k]
    ensures e.SetCookies? ==> n == r.(cookies := Merge(r.cookies, e.cookies))
    ensures e.SetBody? ==> n == r.(body := e.body)
  {
    match e
    case SetCode(c) => r.(code := c)
    case SetHeader(k, v) => r.(headers := r.headers[k := v])
    case SetHeaders(h) => r.(headers := Merge(r.headers, h))
    case SetCookie(k, v) => r.(cookies := r.cookies[k := v])
    case SetCookies(c) => r.(cookies := Merge(r.cookies, c))
    case SetBody(b) => r.(body := b)
  }

  /**
   * The response after the setter calls `es`, in order. Setters only add or
   * overwrite keys, so no header or cookie already set is ever removed.
   */
  function ApplyEffects(r: ResponseState, es: seq<Effect>): (n: ResponseState)
    ensures r.headers.Keys <= n.headers.Keys && r.cookies.Keys <= n.cookies.Keys
    ensures (forall i :: 0 <= i < |es| ==> !es[i].SetBody?) ==> n.body == r.body
    decreases |es|
  {
    if es == [] then r else ApplyEffect(ApplyEffects(r, es[..|es| - 1]), es[|es| - 1])
  }

  /** Running `a` and then `b` on the same object is running `a + b`. */
  lemma {:induction false} ApplyEffectsAppend(r: ResponseState, a: seq<Effect>, b: seq<Effect>)
    ensures ApplyEffects(r, a + b) == ApplyEffects(ApplyEffects(r, a), b)
    decreases |b|
  {
    if b == [] {
      assert a + b == a;
    } else {
      var last := b[|b| - 1];
      assert (a + b)[..|a + b| - 1] == a + b[..|b| - 1];
      assert (a + b)[|a + b| - 1] == last;
      ApplyEffectsAppend(r, a, b[..|b| - 1]);
    }
  }

  /** Setter calls among which there is no `setCode` leave the code as it was. */
  lemma {:induction false} CodeKeptWithoutSetCode(r: ResponseState, es: seq<Effect>)
    requires forall i :: 0 <= i < |es| ==> !es[i].SetCode?
    ensures ApplyEffects(r, es).code == r.code
    decreases |es|
  {
    if es != [] {
      CodeKeptWithoutSetCode(r, es[..|es| - 1]);
    }
  }

  /** After a `setCode(c)` that is followed by no other `setCode`, the code is `c`. */
  lemma {:induction false} LastSetCodeWins(r: ResponseState, es: seq<Effect>, i: nat, c: Value)
    requires i < |es| && es[i] == SetCode(c)
    requires forall j :: i < j < |es| ==> !es[j].SetCode?
    ensures ApplyEffects(r, es).code == c
  {
    ApplyEffectsAppend(r, es[..i + 1], es[i + 1..]);
    assert es[..i + 1] + es[i + 1..] == es;
    assert es[..i + 1][..i] == es[..i];
    CodeKeptWithoutSetCode(ApplyEffects(r, es[..i + 1]), es[i + 1..]);
  }

  /** Two setter calls in a row. */
  lemma ApplyTwo(r: ResponseState, first: Effect, second: Effect)
    ensures ApplyEffects(r, [first, second]) == ApplyEffect(ApplyEffect(r, first), second)
  {
    assert [first, second][..1] == [first];
    assert [first][..0] == [];
    assert ApplyEffects(r, [first]) == ApplyEffect(ApplyEffects(r, []), first);
  }

  /**
   * `setHeaders(h)` twice: per key the second argument wins, then the first,
   * then the headers already set; cookies, code and body are untouched.
   */
  lemma SetHeadersTwice(r: ResponseState, first: map<string, Value>, second: map<string, Value>)
    ensures ApplyEffects(r, [SetHeaders(first), SetHeaders(second)]) ==
            r.(headers := Merge(r.headers, Merge(first, second)))
  {
    ApplyTwo(r, SetHeaders(first), SetHeaders(second));
    MergeTwice(r.headers, first, second);
  }

  /**
   * `setHeader(k, v)` after `setHeaders(h)` overrides key `k` alone: every
   * other key keeps the merged value.
   */
  lemma SetHeaderAfterSetHeaders(r: ResponseState, h: map<string, Value>, k: string, v: Value)
    ensures var after := ApplyEffects(r, [SetHeaders(h), SetHeader(k, v)]);
            && after.headers.Keys == r.headers.Keys + h.Keys + {k}
            && after.headers[k] == v
            && (forall other :: other in after.headers && other != k ==> after.headers[other] == Merge(r.headers, h)[other])
            && after.code == r.code && after.body == r.body && after.cookies == r.cookies
  {
    ApplyTwo(r, SetHeaders(h), SetHeader(k, v));
  }

  /** `setCookies(c)` twice: per key the second argument wins, as for headers. */
  lemma SetCookiesTwice(r: ResponseState, first: map<string, Value>, second: map<string, Value>)
    ensures ApplyEffects(r, [SetCookies(first), SetCookies(second)]) ==
            r.(cookies := Merge(r.cookies, Merge(first, second)))
  {
    ApplyTwo(r, SetCookies(first), SetCookies(second));
    MergeTwice(r.cookies, first, second);
  }

  /** The inputs handler code reacts to: the request fields of its own object. */
  datatype Member =
    | NotFunction(value: Value)           // absent (Undefined) or not callable; never Func
    | Function(run: RequestState -> Step) // a method: what one call does

  /** One call of a handler method: the setters it calls, then how it ends. */
  datatype Step = Step(effects: seq<Effect>, completion: Completion)

  /** The `validate` and `process` members a handler class defines. */
  datatype Behaviour = Behaviour(validate: Member, process: Member)

  /** The base class defines neither. */
  const BaseBehaviour := Behaviour(NotFunction(Undefined), NotFunction(Undefined))

  class APIView {
    /** `this.constructor.name` */
    const name: string
    /** The members the instance's class defines. */
    const behaviour: Behaviour
    /** `this._request` */
    var request: RequestState
    /** `this._response`, which the `response` getter hands out. */
    var response: ResponseState

    /** `new APIView()`: no request field is set; code and body are undefined, headers and cookies empty. */
    constructor ()
      ensures name == "APIView" && behaviour == BaseBehaviour
      ensures request == EmptyRequest && response == FreshResponse
    {
      name := "APIView";
      behaviour := BaseBehaviour;
      request := EmptyRequest;
      response := FreshResponse;
    }

    /** `new Subclass()` for a subclass that keeps the base constructor. */
    constructor Instance(className: string, members: Behaviour)
      ensures name == className && behaviour == members
      ensures request == EmptyRequest && response == FreshResponse
    {
      name := className;
      behaviour := members;
      request := EmptyRequest;
      response := FreshResponse;
    }

    // Request getters

    function Entity(): Value reads this { request.entity }
    function Data(): Value reads this { request.data }
    function PathParameters(): Value reads this { request.pathParameters }
    function Headers(): Value reads this { request.headers }
    function Cookies(): Value reads this { request.cookies }

    // Request setters: each stores one field and nothing else

    method SetEntity(entity: Value)
      modifies this
      ensures Entity() == entity
      ensures request == old(request).(entity := entity) && response == old(response)
    {
      request := request.(entity := entity);
    }

    method SetData(data: Value)
      modifies this
      ensures Data() == data
      ensures request == old(request).(data := data) && response == old(response)
    {
      request := request.(data := data);
    }

    method SetPathParameters(pathParameters: Value)
      modifies this
      ensures PathParameters() == pathParameters
      ensures request == old(request).(pathParameters := pathParameters) && response == old(response)
    {
      request := request.(pathParameters := pathParameters);
    }

    method SetRequestHeaders(headers: Value)
      modifies this
      ensures Headers() == headers
      ensures request == old(request).(headers := headers) && response == old(response)
    {
      request := request.(headers := headers);
    }

    method SetRequestCookies(cookies: Value)
      modifies this
      ensures Cookies() == cookies
      ensures request == old(request).(cookies := cookies) && response == old(response)
    {
      request := request.(cookies := cookies);
    }

    // Response setters: each returns the object itself and changes only its own part

    method SetCode(code: Value) returns (self: APIView)
      modifies this
      ensures self == this
      ensures response == old(response).(code := code) && request == old(request)
    {
      response := response.(code := code);
      self := this;
    }

    /** Writes one key into the header map in place. */
    method SetHeader(headerName: string, headerValue: Value) returns (self: APIView)
      modifies this
      ensures self == this
      ensures response == old(response).(headers := old(response.headers)[headerName := headerValue])
      ensures request == old(request)
    {
      response := response.(headers := response.headers[headerName := headerValue]);
      self := this;
    }

    /** Replaces the header map with the old one overridden by `headers`. */
    method SetHeaders(headers: map<string, Value>) returns (self: APIView)
      modifies this
      ensures self == this
      ensures response == old(response).(headers := Merge(old(response.headers), headers))
      ensures request == old(request)
    {
      response := response.(headers := Merge(response.headers, headers));
      self := this;
    }

    /** Writes one key into the cookie map in place. */
    method SetCookie(cookieName: string, cookieValue: Value) returns (self: APIView)
      modifies this
      ensures self == this
      ensures response == old(response).(cookies := old(response.cookies)[cookieName := cookieValue])
      ensures request == old(request)
    {
      response := response.(cookies := response.cookies[cookieName := cookieValue]);
      self := this;
    }

    /** Replaces the cookie map with the old one overridden by `cookies`. */
    method SetCookies(cookies: map<string, Value>) returns (self: APIView)
      modifies this
      ensures self == this
      ensures response == old(response).(cookies := Merge(old(response.cookies), cookies))
      ensures request == old(request)
    {
      response := response.(cookies := Merge(response.cookies, cookies));
      self := this;
    }

    method SetBody(body: Value) returns (self: APIView)
      modifies this
      ensures self == this
      ensures response == old(response).(body := body) && request == old(request)
    {
      response := response.(body := body);
      self := this;
    }

    /** Handler code making the setter calls `effects` on this object, in order. */
    method Perform(effects: seq<Effect>)
      modifies this
      ensures response == ApplyEffects(old(response), effects)
      ensures request == old(request)
    {
      for i := 0 to |effects|
        invariant response == ApplyEffects(old(response), effects[..i])
        invariant request == old(request)
      {
        var self: APIView;
        match effects[i] {
          case SetCode(c) => self := SetCode(c);
          case SetHeader(k, v) => self := SetHeader(k, v);
          case SetHeaders(h) => self := SetHeaders(h);
          case SetCookie(k, v) => self := SetCookie(k, v);
          case SetCookies(c) => self := SetCookies(c);
          case SetBody(b) => self := SetBody(b);
        }
        assert effects[..i + 1][..i] == effects[..i];
      }
      assert effects[..|effects|] == effects;
    }
  }
}
