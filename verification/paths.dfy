/**
 * Where a mutation sends its request (`ContextlessMutate.mutate`, src/Mutate.tsx:119-124)
 * and the path it reports to its children (`render`, src/Mutate.tsx:161).
 */
module Paths {
  import opened Wrappers
  import opened Config

  /** The base of every request: the root base in absolute mode, the `base` prop otherwise. */
  function RequestBase(p: MutateProps): string {
    Template(if p.absolute then p.originalBase else p.base)
  }

  /** `"/" + normalizeUrlPath(path)` for a non-empty path, nothing for an empty one. */
  function PathSegment(path: string, normalize: string -> string): string {
    if path != "" then "/" + normalize(path) else ""
  }

  /** The resource-id segment: only DELETE with a truthy argument appends one. */
  function IdSegment<V>(verb: Verb, body: Body<V>, coerce: V -> string): string {
    if verb == DELETE && Truthy(body) then "/" + Coerced(body, coerce) else ""
  }

  /** The URL `mutate(body)` requests. */
  function RequestUrl<V>(p: MutateProps, body: Body<V>, ext: Externals<V>): (url: string)
    ensures p.absolute ==> Template(p.originalBase) <= url
    ensures !p.absolute ==> Template(p.base) <= url
    ensures p.path != "" ==> RequestBase(p) + "/" + ext.normalizeUrlPath(p.path) <= url
    ensures p.path == "" && !(p.verb == DELETE && Truthy(body)) ==> url == RequestBase(p)
    ensures p.verb == DELETE && body.Text? && body.text != "" ==> |url| > |body.text| && url[|url| - |body.text| - 1..] == "/" + body.text
  {
    RequestBase(p) + PathSegment(p.path, ext.normalizeUrlPath) + IdSegment(p.verb, body, ext.coerce)
  }

  /**
   * DELETE with a truthy argument requests the argument-free URL followed by `/` and the
   * argument's text; with any other verb or a falsy argument, the argument leaves the URL alone.
   */
  lemma DeleteAppendsId<V>(p: MutateProps, body: Body<V>, ext: Externals<V>)
    ensures p.verb == DELETE && Truthy(body) ==>
      RequestUrl(p, body, ext) == RequestUrl(p, Absent, ext) + "/" + Coerced(body, ext.coerce)
    ensures p.verb != DELETE || !Truthy(body) ==> RequestUrl(p, body, ext) == RequestUrl(p, Absent, ext)
  {
    assert RequestUrl(p, Absent, ext) == RequestBase(p) + PathSegment(p.path, ext.normalizeUrlPath);
  }

  /** Absolute mode never reads the `base` prop; relative mode never reads `originalBase`. */
  lemma BaseSelection<V>(p: MutateProps, other: Option<string>, body: Body<V>, ext: Externals<V>)
    ensures p.absolute ==> RequestUrl(p.(base := other), body, ext) == RequestUrl(p, body, ext)
    ensures !p.absolute ==> RequestUrl(p.(originalBase := other), body, ext) == RequestUrl(p, body, ext)
  {
  }

  /** The `absolutePath` reported to children: base, `/`, normalized path, even when the path is empty. */
  function AbsolutePath(p: MutateProps, normalize: string -> string): (path: string)
    ensures RequestBase(p) + "/" <= path
  {
    RequestBase(p) + "/" + normalize(p.path)
  }

  /**
   * The reported `absolutePath` is the URL requested when the path is non-empty and no id is
   * appended; with an empty path the request goes to the bare base while `absolutePath`
   * still carries `/` and the normalized empty path.
   */
  lemma AbsolutePathVersusRequestUrl<V>(p: MutateProps, body: Body<V>, ext: Externals<V>)
    requires !(p.verb == DELETE && Truthy(body))
    ensures p.path != "" ==> AbsolutePath(p, ext.normalizeUrlPath) == RequestUrl(p, body, ext)
    ensures p.path == "" ==>
      AbsolutePath(p, ext.normalizeUrlPath) == RequestUrl(p, body, ext) + "/" + ext.normalizeUrlPath("")
  {
  }
}
