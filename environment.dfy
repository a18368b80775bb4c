/**
 * The host process as the handler lookup sees it: the working directory,
 * the MS_PATH environment variable, and `require` as a table from module
 * paths to what loading them gives. A path is a sequence of segments.
 */
module Environment {
  import opened JsValues

  /** A module path: the non-empty segments between separators. */
  type Path = seq<string>

  /**
   * `path.join(...segments)`: zero-length segments are ignored, every other
   * segment is kept in order.
   */
  function Join(segments: seq<string>): (p: Path)
    ensures forall i :: 0 <= i < |p| ==> p[i] != ""
    ensures |p| <= |segments|
    ensures (forall i :: 0 <= i < |segments| ==> segments[i] != "") ==> p == segments
  {
    if segments == [] then []
    else (if segments[0] == "" then [] else [segments[0]]) + Join(segments[1..])
  }

  /** Joining two lists of segments is joining each and appending. */
  lemma {:induction false} JoinAppend(a: seq<string>, b: seq<string>)
    ensures Join(a + b) == Join(a) + Join(b)
  {
    if a == [] {
      assert a + b == b;
    } else {
      assert (a + b)[0] == a[0];
      assert (a + b)[1..] == a[1..] + b;
      JoinAppend(a[1..], b);
    }
  }

  /**
   * One segment joins to itself, or to nothing when it is empty; with
   * JoinAppend this fixes Join on every input: each non-empty segment is kept,
   * in order, and each empty one dropped.
   */
  lemma JoinSingleton(segment: string)
    ensures Join([segment]) == (if segment == "" then [] else [segment])
  {
  }

  /** A join of segments with empty ones among them: those are dropped, the others kept in order. */
  lemma JoinDropsEmpty(a: string, b: string)
    requires a != "" && b != ""
    ensures Join([a, "", b]) == [a, b]
  {
  }

  /** The path as text, segments separated by '/'. */
  function Render(p: Path): string {
    if p == [] then "" else if |p| == 1 then p[0] else p[0] + "/" + Render(p[1..])
  }

  /** What `module.exports` of a loaded handler file is. */
  datatype Export<C> =
    | Falsy                 // false, null, 0, '' or undefined
    | NotConstructible      // `new` on it throws: not a class, or its constructor throws
    | Constructible(cls: C) // a class whose instances are described by `cls`

  /** The outcome of `require(path)` for a path that exists. */
  datatype Module<C> = LoadThrows | Loaded(exported: Export<C>)

  /**
   * `process.cwd()`, `process.env.MS_PATH` (None when unset) and the module
   * table: a path not in `modules` is MODULE_NOT_FOUND.
   */
  datatype Host<C> = Host(cwd: string, msPath: Option<string>, modules: map<Path, Module<C>>)

  /** `require(path)`: None when loading throws, else the export. */
  function Require<C>(host: Host<C>, path: Path): Option<Export<C>> {
    if path in host.modules && host.modules[path].Loaded? then Some(host.modules[path].exported) else None
  }
}
