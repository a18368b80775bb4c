/**
 * The legacy generation's handler lookup (api-view/fetcher.js): the handler
 * file lives under `<cwd>/api`, and its export only has to be constructible.
 */
module LegacyFetcher {
  import opened JsValues
  import opened Environment
  import LegacyError

  /**
   * A legacy handler method, called as `m(data, entityId)`: a callable value
   * with what one call ends in, or some other value. The value a NotCallable
   * wraps is never Func: a callable member is always a Callable.
   */
  datatype LegacyMember =
    | NotCallable(value: Value)
    | Callable(run: (Value, Value) -> Completion)

  /** `if (m)`: a callable is truthy; any other value by its own truthiness. */
  predicate Present(m: LegacyMember) {
    m.Callable? || Truthy(m.value)
  }

  /** A legacy handler instance: its `validate` and `process` members and its `struct` property. */
  datatype LegacyHandler = LegacyHandler(validate: LegacyMember, process: LegacyMember, struct: Value)

  /** `Fetcher.folder` */
  const Folder: string := "api"

  /** `Fetcher.apiPath`: the working directory joined with the folder. */
  function ApiPath(host: Host<LegacyHandler>): (p: Path)
    ensures p == Join([host.cwd]) + [Folder]
  {
    JoinAppend([host.cwd], [Folder]);
    Join([host.cwd, Folder])
  }

  /** The base path reads no environment variable: MS_PATH plays no part. */
  lemma ApiPathIgnoresMsPath(host: Host<LegacyHandler>, msPath: Option<string>)
    ensures ApiPath(host.(msPath := msPath)) == ApiPath(host)
  {
  }

  /** `new Fetcher(entity, action, method, entityId)` */
  datatype Fetcher = Fetcher(entity: string, action: string, methodName: string, entityId: Value)

  /** `_getFilePath`: the base path followed by entity, action and method, in that order. */
  function FilePath(f: Fetcher, host: Host<LegacyHandler>): (p: Path)
    ensures p == ApiPath(host) + Join([f.entity, f.action, f.methodName])
    ensures f.entity != "" && f.action != "" && f.methodName != "" ==>
              p == ApiPath(host) + [f.entity, f.action, f.methodName]
  {
    JoinAppend(ApiPath(host), [f.entity, f.action, f.methodName]);
    Join(ApiPath(host) + [f.entity, f.action, f.methodName])
  }

  /** The entity id is stored but takes no part in the handler path. */
  lemma FilePathIgnoresEntityId(f: Fetcher, host: Host<LegacyHandler>, entityId: Value)
    ensures FilePath(f.(entityId := entityId), host) == FilePath(f, host)
  {
  }

  /**
   * `getAPIController`: a file that fails to load or exports a falsy value
   * gives API_NOT_FOUND, an export `new` fails on gives INVALID_API, and
   * anything else is instantiated and returned, with no check of its members.
   */
  function GetController(f: Fetcher, host: Host<LegacyHandler>): (r: Result<LegacyHandler, JsError>)
    ensures var e := Require(host, FilePath(f, host));
            r.Ok? <==> e.Some? && e.value.Constructible?
    ensures r.Ok? ==> Require(host, FilePath(f, host)) == Some(Constructible(r.value))
    ensures r.Err? ==> r.error.name == "APIViewError" && r.error.code in {Num(5), Num(6)}
    ensures var e := Require(host, FilePath(f, host));
            (e.None? || e.value.Falsy?) ==> r == Err(LegacyError.Raise("Invalid API Controller '" + Render(FilePath(f, host)) + "'", "API_NOT_FOUND"))
    ensures Require(host, FilePath(f, host)) == Some(NotConstructible) ==>
              r == Err(LegacyError.Raise("API Controller '" + Render(FilePath(f, host)) + "' is not a api class", "INVALID_API"))
  {
    var path := FilePath(f, host);
    var exported := Require(host, path);
    if exported.None? || exported.value.Falsy? then
      Err(LegacyError.Raise("Invalid API Controller '" + Render(path) + "'", "API_NOT_FOUND"))
    else if exported.value.NotConstructible? then
      Err(LegacyError.Raise("API Controller '" + Render(path) + "' is not a api class", "INVALID_API"))
    else
      Ok(exported.value.cls)
  }
}
