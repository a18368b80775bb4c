/**
 * The newer generation's handler lookup (lib/fetcher.js): where the handler
 * file for `entity/action/method` lives, and the checks its export must pass
 * before a fresh instance is handed out.
 */
module LibFetcher {
  import opened JsValues
  import opened Environment
  import opened LibApiView
  import LibError

  /** What a handler file's class is: its name, whether it extends APIView, and its members. */
  datatype HandlerClass = HandlerClass(name: string, extendsAPIView: bool, behaviour: Behaviour)

  /** `Fetcher.folder` */
  const Folder: string := "api-view"

  /** `typeof process.env.MS_PATH === 'string' ? process.env.MS_PATH : ''` */
  function Prefix(msPath: Option<string>): (p: string)
    ensures msPath.None? ==> p == ""
    ensures msPath.Some? ==> p == msPath.value
  {
    if msPath.Some? then msPath.value else ""
  }

  /**
   * `Fetcher.apiViewPath`: the working directory, then MS_PATH when it is
   * set, then the folder.
   */
  function ApiViewPath(host: Host<HandlerClass>): (p: Path)
    ensures Prefix(host.msPath) != "" ==> p == Join([host.cwd]) + [Prefix(host.msPath), Folder]
    ensures Prefix(host.msPath) == "" ==> p == Join([host.cwd]) + [Folder]
  {
    JoinAppend([host.cwd], [Prefix(host.msPath), Folder]);
    assert [host.cwd] + [Prefix(host.msPath), Folder] == [host.cwd, Prefix(host.msPath), Folder];
    Join([host.cwd, Prefix(host.msPath), Folder])
  }

  /** `new Fetcher(entity, action, method)` */
  datatype Fetcher = Fetcher(entity: string, action: string, methodName: string)

  /**
   * `filePath`: the base path followed by entity, action and method (`methodName`), in
   * that order (an empty one is skipped, as path.join does).
   */
  function FilePath(f: Fetcher, host: Host<HandlerClass>): (p: Path)
    ensures p == ApiViewPath(host) + Join([f.entity, f.action, f.methodName])
    ensures f.entity != "" && f.action != "" && f.methodName != "" ==>
              p == ApiViewPath(host) + [f.entity, f.action, f.methodName]
  {
    JoinAppend(ApiViewPath(host), [f.entity, f.action, f.methodName]);
    Join(ApiViewPath(host) + [f.entity, f.action, f.methodName])
  }

  /**
   * The check chain of `apiController`, first failure wins: the file must
   * load to a truthy export (else API_VIEW_NOT_FOUND), the export must be
   * constructible (else INVALID_API_VIEW), the instance must be an APIView
   * (else INVALID_API_VIEW_INHERITANCE) and its `process` a function (else
   * PROCESS_METHOD_NOT_FOUND).
   */
  function ResolveController(f: Fetcher, host: Host<HandlerClass>): (r: Result<HandlerClass, JsError>)
    ensures var e := Require(host, FilePath(f, host));
            r.Ok? <==> e.Some? && e.value.Constructible? && e.value.cls.extendsAPIView && e.value.cls.behaviour.process.Function?
    ensures r.Ok? ==> Require(host, FilePath(f, host)) == Some(Constructible(r.value))
    ensures r.Err? ==> r.error.name == "APIViewError" && r.error.code in {Num(7), Num(8), Num(9), Num(10)}
    ensures var e := Require(host, FilePath(f, host));
            (e.None? || e.value.Falsy?) ==>
              r == Err(LibError.Raise("Invalid API View Controller '" + Render(FilePath(f, host)) + "'", "API_VIEW_NOT_FOUND"))
    ensures Require(host, FilePath(f, host)) == Some(NotConstructible) ==>
              r == Err(LibError.Raise("API View Controller '" + Render(FilePath(f, host)) + "' is not a api class", "INVALID_API_VIEW"))
    ensures var e := Require(host, FilePath(f, host));
            e.Some? && e.value.Constructible? && !e.value.cls.extendsAPIView ==>
              r == Err(LibError.Raise("API '" + e.value.cls.name + "' does not inherit from 'APIView'", "INVALID_API_VIEW_INHERITANCE"))
    ensures var e := Require(host, FilePath(f, host));
            e.Some? && e.value.Constructible? && e.value.cls.extendsAPIView && !e.value.cls.behaviour.process.Function? ==>
              r == Err(LibError.Raise("API '" + e.value.cls.name + "' Method 'process' not found", "PROCESS_METHOD_NOT_FOUND"))
  {
    var path := FilePath(f, host);
    var exported := Require(host, path);
    if exported.None? || exported.value.Falsy? then
      Err(LibError.Raise("Invalid API View Controller '" + Render(path) + "'", "API_VIEW_NOT_FOUND"))
    else if exported.value.NotConstructible? then
      Err(LibError.Raise("API View Controller '" + Render(path) + "' is not a api class", "INVALID_API_VIEW"))
    else if !exported.value.cls.extendsAPIView then
      Err(LibError.Raise("API '" + exported.value.cls.name + "' does not inherit from 'APIView'", "INVALID_API_VIEW_INHERITANCE"))
    else if !exported.value.cls.behaviour.process.Function? then
      Err(LibError.Raise("API '" + exported.value.cls.name + "' Method 'process' not found", "PROCESS_METHOD_NOT_FOUND"))
    else
      Ok(exported.value.cls)
  }

  /**
   * The `apiController` getter: the checks above, and on success a new
   * instance of the class, built afresh on every access.
   */
  method ApiController(f: Fetcher, host: Host<HandlerClass>) returns (r: Result<APIView, JsError>)
    ensures ResolveController(f, host).Err? ==> r == Err(ResolveController(f, host).error)
    ensures ResolveController(f, host).Ok? ==>
              && r.Ok? && fresh(r.value)
              && r.value.name == ResolveController(f, host).value.name
              && r.value.behaviour == ResolveController(f, host).value.behaviour
              && r.value.request == EmptyRequest && r.value.response == FreshResponse
  {
    var resolved := ResolveController(f, host);
    if resolved.Err? {
      r := Err(resolved.error);
    } else {
      var instance := new APIView.Instance(resolved.value.name, resolved.value.behaviour);
      r := Ok(instance);
    }
  }
}
