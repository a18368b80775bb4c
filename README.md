# api-view dispatch pipeline in Dafny

This project models the request-dispatch core of the `api-view` package.
The package turns a logical request `{entity, action, method, entityId, data, headers, cookies}`
into an HTTP-style response by doing four things:

- it looks up a handler class in a file named after `entity/action/method`;
- it instantiates the class;
- it runs the handler's `validate` and `process`;
- it classifies the outcome into a status code.

The package has two generations, and they are modelled separately because their rules differ.

- **Newer generation** (`lib/`):
  - `Dispatcher` validates the envelope, including headers and cookies.
  - It then runs the stages `prepare → validate → process → response` on a handler that extends `APIView`.
  - A `hasError` flag skips the later stages once a stage has failed.
  - An error writes its code only when no code is set yet, and the code defaults to 200 at the end.
  - `APIView` is a mutable object. It has request accessors and chainable response setters, and headers and cookies merge.
- **Legacy generation** (`api-view/`):
  - `APIView` validates four envelope fields.
  - It then returns early from each stage with `{code, message}` or `{code, headers, body}`.
  - The code comes from range rules on the `_httpCode` hint: [400, 500) for validate errors, at least 500 for process errors, below 400 for a success.
  - An optional `struct` on the handler checks the data before `validate` and replaces it with the parsed copy.

Modules:

| module | file | models |
|---|---|---|
| `JsValues` | js_values.dfy | JavaScript values and truthiness, `_isObject`, thrown errors, call completions |
| `Environment` | environment.dfy | `path.join` over segments; the host: cwd, `MS_PATH`, and `require` as a table |
| `LibError`, `LegacyError` | lib_error.dfy, legacy_error.dfy | the two `APIViewError` code tables and constructors |
| `LibApiView` | lib_api_view.dfy | the newer `APIView` class and the setter calls handler code makes |
| `LibFetcher`, `LegacyFetcher` | lib_fetcher.dfy, legacy_fetcher.dfy | handler paths and the lookup check chains |
| `LibDispatcher` | lib_dispatcher.dfy | the newer `Dispatcher` class and its stage functions |
| `LegacyApiView` | legacy_api_view.dfy | the legacy `APIView` class, its stages and its code classification |
| `Generations` | generations.dfy | how the two envelope validators relate |

How the effectful parts are specified:

- Each state-changing method is proved against a pure function of the old state.
  - `Dispatcher.Prepare` against `Prepared`, `Validate` against `Validated`, and so on.
  - `APIView.Perform` against `ApplyEffects`.
  - `LegacyAPIView.Dispatch` against `OutcomeAsWritten`, which agrees with the corrected `Outcome` except for the finding below.
- The lemmas then state what a whole dispatch answers.

Handler code is an input:

- A newer handler method is a function from the request fields of its object to a `Step`. A `Step` is the response setter calls the method makes, then how it ends: it returns or it throws.
- A legacy handler method is a function of `(data, entityId)` to a completion.

The first check's message, 'request data must be an Object' (lib/dispatcher.js:41, api-view/api-view.js:39), suggests that every non-object is rejected with INVALID_REQUEST_DATA. The model follows what the code does:

- `_isObject(null)` holds, because `typeof null` is `'object'`.
- So a null request is not rejected with INVALID_REQUEST_DATA. Reading its `entity` throws a TypeError instead. This holds in both generations (`ValidateRequestData`, `Validate`).

The model also shows a consequence of `hasError` never being reset (`ErrorFlagAfterDispatch`, `RepeatedDispatchAfterError`, `SecondDispatchAfterThrow`):

- Suppose a `Dispatcher` whose previous dispatch failed is dispatched again.
- When the handler is found this time, it skips `validate` and `process` and answers 200 with an empty body.
- When the lookup fails again, it answers 500 with the lookup's message, as on any failed lookup (`LookupFailure`).

## Model

| member | source | states |
|---|---|---|
| JsValues.IsObject | lib/dispatcher.js:29-31 | `typeof v === 'object' && !Array.isArray(v)` holds for exactly the plain objects and null |
| Environment.Join | lib/fetcher.js:31-33 | the joined path has no empty segment and is no longer than the input, and it is the input itself when no segment is empty |
| Environment.JoinAppend | lib/fetcher.js:16-19 | joining a concatenation is concatenating the joins, so a base path can be extended segment-wise |
| Environment.JoinSingleton | lib/fetcher.js:31-33 | one segment joins to itself, or to nothing when empty; with JoinAppend this fixes the join on every input: non-empty segments kept in order, empty ones dropped |
| Environment.JoinDropsEmpty | lib/fetcher.js:31-33 | an empty segment between two others is dropped: `a`, '', `b` joins to `a/b` |
| LibError.CodesTable | lib/error.js:5-21 | ten names mapped to the pairwise distinct codes 1..10; validator names get 1-6 and fetcher names 7-10 |
| LibError.NewAPIViewError | lib/error.js:31-36 | name is always 'APIViewError', the code is stored unchanged, the message is `err.message` when truthy and `err` otherwise |
| LibError.Raise | lib/error.js:31-36 | an error raised with a text message and a table name carries that message and that name's code |
| LegacyError.CodesTable | api-view/error.js:5-16 | seven names mapped to the distinct codes 1..7, with API_NOT_FOUND=5, INVALID_API=6, PROCESS_METHOD_NOT_FOUND=7 |
| LegacyError.NewAPIViewError | api-view/error.js:26-31 | name is always 'APIViewError', the code is stored unchanged, the message falls back from `err.message` to `err` |
| LegacyError.Raise | api-view/error.js:26-31 | an error raised with a text message and a table name carries that message and that name's code |
| LibApiView.Merge | lib/api-view.js:74-77 | `{...base, ...over}`: every key of either map, the argument's value wins, others keep the old value |
| LibApiView.ApplyEffect | lib/api-view.js:64-92 | per setter: `setCode` and `setBody` replace only their field; `setHeader`/`setCookie` add or overwrite one key and keep every other; `setHeaders`/`setCookies` merge the argument over the old map; every other field is kept |
| LibApiView.ApplyEffects | lib/api-view.js:64-92 | the response after a handler's setter calls in order: no header or cookie key already set is removed, and without a `setBody` the body is kept; ApplyEffectsAppend, CodeKeptWithoutSetCode and LastSetCodeWins state how calls compose and which code wins |
| LibApiView.MergeTwice | lib/api-view.js:74-77 | two merges in a row equal one merge with the merged arguments |
| LibApiView.ApplyEffectsAppend | lib/api-view.js:64-92 | running setter calls `a` then `b` is running `a + b` |
| LibApiView.CodeKeptWithoutSetCode | lib/api-view.js:64-92 | setter calls that include no `setCode` leave the code as it was |
| LibApiView.LastSetCodeWins | lib/api-view.js:64-67 | after a `setCode(c)` followed by no other `setCode`, the code is `c` |
| LibApiView.ApplyTwo | lib/api-view.js:64-92 | two setter calls compose in order |
| LibApiView.SetHeadersTwice | lib/api-view.js:74-77 | two `setHeaders` calls: per key the later argument wins, then the earlier one, then the old headers; nothing else changes |
| LibApiView.SetHeaderAfterSetHeaders | lib/api-view.js:69-77 | `setHeader(k, v)` after `setHeaders(h)` changes key `k` alone and leaves code, body and cookies unchanged |
| LibApiView.SetCookiesTwice | lib/api-view.js:84-87 | two `setCookies` calls merge like headers, the later argument winning |
| LibApiView.APIView.constructor | lib/api-view.js:5-14 | a new base APIView has no request field set, code and body undefined, empty headers and cookies |
| LibApiView.APIView.Instance | lib/api-view.js:5-14 | a new handler instance starts with the same empty request and fresh response |
| LibApiView.APIView.SetEntity | lib/api-view.js:18-24 | the getter returns the stored entity; no other request field and not the response changes |
| LibApiView.APIView.SetData | lib/api-view.js:26-32 | the getter returns the stored data; nothing else changes |
| LibApiView.APIView.SetPathParameters | lib/api-view.js:34-40 | the getter returns the stored path parameters; nothing else changes |
| LibApiView.APIView.SetRequestHeaders | lib/api-view.js:42-48 | the getter returns the stored request headers; nothing else changes |
| LibApiView.APIView.SetRequestCookies | lib/api-view.js:50-56 | the getter returns the stored request cookies; nothing else changes |
| LibApiView.APIView.SetCode | lib/api-view.js:64-67 | returns the object itself; overwrites the code and nothing else |
| LibApiView.APIView.SetHeader | lib/api-view.js:69-72 | returns the object itself; writes one header key and nothing else |
| LibApiView.APIView.SetHeaders | lib/api-view.js:74-77 | returns the object itself; the headers become the old map overridden by the argument |
| LibApiView.APIView.SetCookie | lib/api-view.js:79-82 | returns the object itself; writes one cookie key and nothing else |
| LibApiView.APIView.SetCookies | lib/api-view.js:84-87 | returns the object itself; the cookies become the old map overridden by the argument |
| LibApiView.APIView.SetBody | lib/api-view.js:89-92 | returns the object itself; overwrites the body and nothing else |
| LibApiView.APIView.Perform | lib/api-view.js:64-92 | handler setter calls made in order leave the response `ApplyEffects` describes and the request unchanged |
| LibFetcher.Prefix | lib/fetcher.js:17 | the prefix is `MS_PATH` when it is set, and `''` when it is not |
| LibFetcher.ApiViewPath | lib/fetcher.js:12-19 | cwd, then `MS_PATH` when it is a non-empty string, then 'api-view' |
| LibFetcher.FilePath | lib/fetcher.js:31-33 | the base path followed by entity, action and method in that order |
| LibFetcher.ResolveController | lib/fetcher.js:40-81 | success exactly when the file loads to a constructible APIView subclass with a function `process`; otherwise the first failing check's error, with its code and message: API_VIEW_NOT_FOUND (7) 'Invalid API View Controller ...' for a failed load or falsy export, INVALID_API_VIEW (8) '... is not a api class', INVALID_API_VIEW_INHERITANCE (9) 'API ... does not inherit from ...', PROCESS_METHOD_NOT_FOUND (10) 'API ... Method 'process' not found' |
| LibFetcher.ApiController | lib/fetcher.js:40-81 | the lookup's error, or a newly allocated instance of the found class with empty request and fresh response |
| LibDispatcher.ValidateRequestData | lib/dispatcher.js:29-59 | accepts exactly an object whose entity, action and method are strings and whose headers and cookies are absent or objects; otherwise the first failing check's code 1-6 in order (a null request throws a TypeError) |
| LibDispatcher.RequestOf | lib/dispatcher.js:10-21 | the stored fields: names and entity id as given; data, headers and cookies default to `{}`, and headers and cookies are then objects |
| LibDispatcher.PathParametersOf | lib/dispatcher.js:85 | `[entityId]` exactly when the entity id is truthy, else `[]` |
| LibDispatcher.Populated | lib/dispatcher.js:83-87 | the entity, data, headers and cookies stored as given, and the path parameters `[entityId]` for a truthy id, else `[]` |
| LibDispatcher.ErrorResponse | lib/dispatcher.js:141-149 | an already set code is kept, else the error's code is written; the body becomes `{ message }`; headers and cookies are untouched |
| LibDispatcher.Prepared | lib/dispatcher.js:76-100 | the flag is set exactly when it was or the lookup fails; a found handler gets its members, the populated request and a fresh response; a failed lookup leaves the base members, an empty request and the response 500 with `{ message }` of the lookup error |
| LibDispatcher.Validated | lib/dispatcher.js:102-120 | no change after an error or when `validate` is no function; otherwise its setter calls apply, the flag is set exactly when it throws, and a throw writes 400 unless a code is set and the body `{ message: err.message or 'data invalid' }` |
| LibDispatcher.Processed | lib/dispatcher.js:122-139 | no change after an error; otherwise its setter calls apply, the flag is set exactly when it throws, and a throw writes 500 unless a code is set and the body `{ message: err.message or 'internal server error' }` |
| LibDispatcher.Finalized | lib/dispatcher.js:151-157 | the code is always set afterwards: a set code is kept with the whole response, else 200 is written and nothing else changes |
| LibDispatcher.Dispatched | lib/dispatcher.js:65-74 | after all stages the handler and request are those `prepare` left, the response has a code, and a set flag stays set |
| LibDispatcher.DispatchResult | lib/dispatcher.js:65-74 | every dispatch answers with a set code |
| LibDispatcher.Dispatcher.constructor | lib/dispatcher.js:10-21 | a validated request's fields are stored; no handler yet, no error recorded |
| LibDispatcher.Dispatcher.Create | lib/dispatcher.js:10-21 | construction throws exactly the validation error, else yields a new dispatcher with the stored fields |
| LibDispatcher.Dispatcher.Prepare | lib/dispatcher.js:76-100 | a new handler instance with entity, data, path parameters, headers and cookies set, or a new base APIView carrying a 500 error and `hasError` set |
| LibDispatcher.Dispatcher.Validate | lib/dispatcher.js:102-120 | skipped after an error or when `validate` is no function; a throw becomes an error response, default 400 and 'data invalid' |
| LibDispatcher.Dispatcher.Process | lib/dispatcher.js:122-139 | skipped after an error; a throw becomes an error response, default 500 and 'internal server error' |
| LibDispatcher.Dispatcher.SetResponseError | lib/dispatcher.js:141-149 | records the error and changes the response as `ErrorResponse` states |
| LibDispatcher.Dispatcher.Response | lib/dispatcher.js:151-157 | sets 200 only when no code is set and hands out the handler's response |
| LibDispatcher.Dispatcher.Dispatch | lib/dispatcher.js:65-74 | the four stages in order on a newly allocated handler; the new state, flag included, is `Dispatched` of the stored request and the old flag, and the answer its response |
| LibDispatcher.LookupFailure | lib/dispatcher.js:89-99 | a failed lookup answers exactly 500, `{ message }` of the lookup error, no headers or cookies, whatever the handler would do |
| LibDispatcher.ValidateThrows | lib/dispatcher.js:102-119 | a throwing `validate` answers with what its setters left, their code or else 400, message `err.message` or 'data invalid'; `process` plays no part |
| LibDispatcher.ProcessThrows | lib/dispatcher.js:122-138 | a throwing `process` after a passing `validate` answers with what both left, their code or else 500, message `err.message` or 'internal server error' |
| LibDispatcher.Succeeds | lib/dispatcher.js:65-74 | when neither throws, the answer is what their setters left, with code 200 if none was set |
| LibDispatcher.ValidateSetsCodeThenThrows | lib/dispatcher.js:141-149 | a `validate` that sets code c and throws is answered with c, not 400 |
| LibDispatcher.RepeatedDispatchAfterError | lib/dispatcher.js:104-105 | a dispatcher that recorded an error, dispatched again with the handler found, answers 200 with an empty response, running no handler code |
| LibDispatcher.ErrorFlagAfterDispatch | lib/dispatcher.js:89-99 | after a dispatch the flag is set exactly when it was before, the lookup failed, or the found handler's `validate` or `process` threw |
| LibDispatcher.SecondDispatchAfterThrow | lib/dispatcher.js:104-119 | when `validate` throws, the dispatch records the error, and a second dispatch with the handler found answers 200 |
| LegacyFetcher.ApiPath | api-view/fetcher.js:11-17 | cwd joined with 'api' |
| LegacyFetcher.ApiPathIgnoresMsPath | api-view/fetcher.js:15-17 | the legacy base path does not depend on `MS_PATH` |
| LegacyFetcher.FilePath | api-view/fetcher.js:75-77 | the base path followed by entity, action and method in that order |
| LegacyFetcher.FilePathIgnoresEntityId | api-view/fetcher.js:19-24 | the stored entity id takes no part in the handler path |
| LegacyFetcher.GetController | api-view/fetcher.js:32-67 | success exactly when the file loads to a constructible export; otherwise API_NOT_FOUND (5) or INVALID_API (6) with the source's messages; no member is checked |
| LegacyApiView.Validate | api-view/api-view.js:27-49 | accepts exactly an object whose entity, action and method are strings; otherwise the first failing check's code 1-4 in order (a null request throws a TypeError) |
| LegacyApiView.RequestOf | api-view/api-view.js:10-19 | the stored fields, data defaulting to `{}` |
| LegacyApiView.ValidateCode | api-view/api-view.js:89 | `_httpCode` when truthy and in [400, 500), else 400; the code always lies in [400, 500) |
| LegacyApiView.ProcessCode | api-view/api-view.js:108 | `_httpCode` when truthy and at least 500, else 500; the code is always at least 500 |
| LegacyApiView.SuccessCode | api-view/api-view.js:118 | an object result's truthy `_httpCode` below 400, else 200; the code is always below 400 |
| LegacyApiView.SuccessHeaders | api-view/api-view.js:119 | an object result's `_headers` when that is an object, else `{}`; always an object |
| LegacyApiView.SuccessAsWritten | api-view/api-view.js:117-126 | the success envelope as written: it fails exactly for a null result, and any other result gets the code of `SuccessCode`, the headers of `SuccessHeaders` and the result itself as body |
| LegacyApiView.SuccessEnvelope | api-view/api-view.js:117-126 | always a success with the raw result as body, object headers and a code below 400; equal to the written envelope whenever that one exists |
| LegacyApiView.NullResultRejects | api-view/api-view.js:118 | a null process result makes the written envelope throw a TypeError, while the corrected one answers 200 |
| LegacyApiView.SchemaArgs | api-view/api-view.js:140 | a single struct is wrapped into a one-element list, an array is passed as it is |
| LegacyApiView.StructCheck | api-view/api-view.js:135-150 | a falsy struct checks nothing; a failing schema throws an APIViewError with code 'DATA_INVALID', outside the table, and no `_httpCode`; a passing one gives the parsed data |
| LegacyApiView.StructErrorIs400 | api-view/api-view.js:86-95 | a struct failure is answered with 400 |
| LegacyApiView.CallIfPresent | api-view/api-view.js:83-84 | an absent member is skipped, a callable one is called with data and entity id, a present non-callable throws a TypeError |
| LegacyApiView.Lookup | api-view/api-view.js:62-75 | the handler exactly when it is found with a truthy `process`; a lookup error gives `{ code: 500, message }` of that error, a falsy `process` `{ code: 500, message: "Method 'process' not found" }` |
| LegacyApiView.Stages | api-view/api-view.js:56-115 | every early return is an error envelope with a code of at least 400; `process` returns only for a found handler, on the data after the struct check, and the result carried on is what that call of `process` returned |
| LegacyApiView.Outcome | api-view/api-view.js:56-127 | the corrected answer: error envelopes have a code of at least 400, successes one below 400 |
| LegacyApiView.OutcomeAsWritten | api-view/api-view.js:56-127 | the answer as written rejects exactly when `process` resolves to null, with the TypeError of reading `_httpCode`; otherwise it equals the corrected answer |
| LegacyApiView.CodeBands | api-view/api-view.js:56-127 | the code tells the stage: a lookup failure is exactly 500, a struct or `validate` failure lies in [400, 500), a `process` failure is at least 500, a success is below 400 |
| LegacyApiView.LookupFailure | api-view/api-view.js:62-75 | a failed lookup answers 500 with its message and leaves the data unchanged |
| LegacyApiView.ValidateFailure | api-view/api-view.js:77-96 | `validate` runs on the parsed data; its throw gives the validate stage's code and message |
| LegacyApiView.ProcessFailure | api-view/api-view.js:98-115 | `process` runs after `validate` on the same data; its throw gives the process stage's code and message |
| LegacyApiView.Succeeds | api-view/api-view.js:117-126 | when `validate` lets the parsed data through and `process` returns `result`, the answer is the success envelope built from `result`; as written it is the written envelope, which rejects for a null `result` |
| LegacyApiView.DataAfter | api-view/api-view.js:135-149 | the data field keeps its constructed value when the lookup fails, the struct is falsy or the struct check fails, and becomes the parsed data when the check passes |
| LegacyApiView.ProcessNotCallable | api-view/api-view.js:103-115 | a truthy non-callable `process` fails in the process stage with 500 and the runtime's TypeError message |
| LegacyApiView.StructFailure | api-view/api-view.js:77-96 | a struct failure stops before `validate` and `process`, in the validate stage's band, data unchanged |
| LegacyApiView.LegacyAPIView.constructor | api-view/api-view.js:10-19 | a validated request's fields are stored |
| LegacyApiView.LegacyAPIView.Create | api-view/api-view.js:10-19 | construction throws exactly the validation error, else yields a new object with the stored fields |
| LegacyApiView.LegacyAPIView.ValidateStruct | api-view/api-view.js:135-150 | on success the data field is replaced by the parsed data; on failure the error is thrown and the data kept |
| LegacyApiView.LegacyAPIView.Dispatch | api-view/api-view.js:56-127 | the answer is `OutcomeAsWritten` of the stored request: it rejects for a null `process` result and otherwise equals `Outcome`; the data field ends as `DataAfter` |
| Generations.EnvelopeChecksRefine | lib/dispatcher.js:38-58 | a request the newer validator accepts the legacy one accepts; a legacy rejection is a newer rejection with the same error; a newer-only rejection is code 5 or 6 |
| Generations.SameRequestFields | lib/dispatcher.js:13-18 | both constructors store the same names, entity id and data default |

## Left out

- Logging: the `logger.error` call in both lookups, and the `instanceof` test that decides whether to log, are output only.
- The filesystem and `require`: they are a table from path to load outcome. A missing module and a module that throws on load both count as not found, as the code treats them.
- Environment: `process.cwd()` and `process.env.MS_PATH` are fields of the host parameter. An `MS_PATH` that is not a string is modelled as unset.
- Path normalisation: paths are sequences of segments. `..`, repeated separators and separators inside a segment are not normalised, and `Environment.Render` joins segments with '/' without a leading separator.
- superstruct: `struct(...)` and `Schema.validate` are an abstract `Schema` function. Its error's `message` is assumed to be a string.
- Concurrency: async/await is modelled as sequential calls. A rejected promise is a thrown error.
- `lib/index.js` and `api-view/index.js` are re-exports with no logic.
- Numbers are integers. Floating point and NaN are not modelled, nor is the conversion of strings and arrays in `<` and `>=`. JavaScript converts these to numbers first, so `'404' < 500`, `[] < 400` and `[450] >= 400` all hold. Here every string and array `_httpCode` compares as NaN, as a plain object does in both.
- A newer handler method sees only the request fields of its own object and acts only through response setter calls. It cannot read the response, keep other state, or call a setter with a non-object argument.
- A legacy handler method cannot change the data object in place, because values here are immutable.
- Every thrown value is an error object. `throw null` and thrown strings are not modelled.
- Handler classes keep the base constructor. A constructor that throws counts as not constructible, and a subclass constructor that sets its own fields is not modelled.
- `Dispatcher.hasError` starts `undefined` in the code and `false` here. The two are equally falsy.
- LibDispatcher.Dispatcher.Response: returns the response state as a value. Later changes to the handler's live `_response` object are not reflected in it.
- LibApiView.APIView.SetHeader: the header map is a map value that is replaced. Another reference to the same map object would see the in-place write in the code.
- LibApiView.APIView.SetCookie: the cookie map is a map value that is replaced. Another reference to the same map object would see the in-place write in the code.
- LibError.NewAPIViewError: requires that the error is neither null nor undefined. The code throws a TypeError on reading `.message` of those; every call in the core passes an error object or a string.
- LegacyError.NewAPIViewError: requires that the error is neither null nor undefined, for the same reason; every call in the core passes an error object or a string.

## Findings

| source | as written | input that shows it | evidently intended | confidence | as-written member | corrected member |
|---|---|---|---|---|---|---|
| api-view/api-view.js:118-119 | `this._isObject(result) && result._httpCode` guards property reads with `_isObject`, which holds for null, so `result._httpCode` is read on null | a handler whose `process` resolves to `null` | the guard skips a null result: code 200, headers `{}`, body `null` | not executed | LegacyApiView.SuccessAsWritten, LegacyApiView.OutcomeAsWritten and LegacyApiView.LegacyAPIView.Dispatch (with LegacyApiView.NullResultRejects) | LegacyApiView.SuccessEnvelope and LegacyApiView.Outcome |
