/**
 * The context wiring of the `Mutate` function component (src/Mutate.tsx:176-189): the props
 * its inner component receives, and the base it hands to components nested inside it.
 * The provider (Context.tsx, not part of this model) is taken to pass its props through
 * as the new context.
 */
module Scope {
  import opened Wrappers
  import opened Config
  import opened Paths
  import opened Descriptor

  /** What an enclosing provider makes available: the current base, the root base and default options. */
  datatype Context = Context(base: Option<string>, originalBase: Option<string>, requestOptions: RequestOptions)

  /**
   * A prop as written on a component: not written at all, or written with a value. A prop
   * written with the value `undefined` is still an own property, and spreading the props
   * copies it over the context's value.
   */
  datatype Written<T> = Unwritten | Written(value: T)

  /**
   * The props written on one `<Mutate>`. A written `base` may be `undefined` (None); a
   * written `requestOptions` may be `undefined` (NoOptions). An `originalBase` written
   * here is discarded by the wiring, so it is not kept.
   */
  datatype Definition = Definition(
    path: string,
    verb: Verb,
    base: Written<Option<string>>,
    absolute: bool,
    requestOptions: Written<RequestOptions>)

  /**
   * The props of the inner component, `{...context} {...props} originalBase={context.originalBase}`:
   * every written prop, `undefined` included, replaces the context's value wholesale, and
   * the root base always comes from the context.
   */
  function Wire(ctx: Context, d: Definition): (p: MutateProps)
    ensures p.originalBase == ctx.originalBase
    ensures p.path == d.path && p.verb == d.verb && p.absolute == d.absolute
    ensures d.base.Written? ==> p.base == d.base.value
    ensures d.base.Unwritten? ==> p.base == ctx.base
    ensures d.requestOptions.Written? ==> p.requestOptions == d.requestOptions.value
    ensures d.requestOptions.Unwritten? ==> p.requestOptions == ctx.requestOptions
  {
    MutateProps(
      d.path,
      d.verb,
      if d.base.Written? then d.base.value else ctx.base,
      d.absolute,
      if d.requestOptions.Written? then d.requestOptions.value else ctx.requestOptions,
      ctx.originalBase)
  }

  /** The base handed to nested components: unchanged in absolute mode, extended by the path otherwise. */
  function ChildBase(ctx: Context, d: Definition, normalize: string -> string): (b: Option<string>)
    ensures d.absolute ==> b == ctx.base
    ensures !d.absolute ==> b.Some? && Template(ctx.base) + "/" <= b.value
  {
    if d.absolute then ctx.base else Some(Template(ctx.base) + "/" + normalize(d.path))
  }

  /** The context seen by components nested inside `d`. */
  function ChildContext(ctx: Context, d: Definition, normalize: string -> string): Context {
    ctx.(base := ChildBase(ctx, d, normalize))
  }

  /**
   * Outside absolute mode and without a `base` prop of its own, a component hands its
   * children exactly the `absolutePath` it reports.
   */
  lemma ChildBaseIsAbsolutePath(ctx: Context, d: Definition, normalize: string -> string)
    requires !d.absolute && d.base.Unwritten?
    ensures ChildBase(ctx, d, normalize) == Some(AbsolutePath(Wire(ctx, d), normalize))
  {
  }

  /** The context seen after descending through the definitions `ds`, outermost first. */
  function NestedContext(ctx: Context, ds: seq<Definition>, normalize: string -> string): Context
    decreases |ds|
  {
    if |ds| == 0 then ctx else NestedContext(ChildContext(ctx, ds[0], normalize), ds[1..], normalize)
  }

  /** The path segments that the non-absolute definitions of `ds` contribute, in order. */
  function Segments(ds: seq<Definition>, normalize: string -> string): string
    decreases |ds|
  {
    if |ds| == 0 then ""
    else (if ds[0].absolute then "" else "/" + normalize(ds[0].path)) + Segments(ds[1..], normalize)
  }

  /**
   * Nesting composes bases additively: the base seen under `ds` is the outer base followed
   * by one `/`-separated segment per enclosing non-absolute definition, and the root base
   * is handed down unchanged.
   */
  lemma {:induction false} NestedBasesCompose(ctx: Context, ds: seq<Definition>, normalize: string -> string)
    ensures Template(NestedContext(ctx, ds, normalize).base) == Template(ctx.base) + Segments(ds, normalize)
    ensures NestedContext(ctx, ds, normalize).originalBase == ctx.originalBase
    decreases |ds|
  {
    if |ds| > 0 {
      var child := ChildContext(ctx, ds[0], normalize);
      NestedBasesCompose(child, ds[1..], normalize);
      assert Template(child.base) == Template(ctx.base) + (if ds[0].absolute then "" else "/" + normalize(ds[0].path));
    }
  }

  /**
   * A relative mutation nested under `ds` requests the outer base, the enclosing segments,
   * then its own path and id segments; an absolute one requests from the root base whatever
   * the nesting, and ignores its own `base` prop.
   */
  lemma NestedRequestUrl<V>(ctx: Context, ds: seq<Definition>, d: Definition, body: Body<V>, ext: Externals<V>)
    ensures var p := Wire(NestedContext(ctx, ds, ext.normalizeUrlPath), d);
      !d.absolute && d.base.Unwritten? ==>
        RequestUrl(p, body, ext) == Template(ctx.base) + Segments(ds, ext.normalizeUrlPath)
          + PathSegment(d.path, ext.normalizeUrlPath) + IdSegment(d.verb, body, ext.coerce)
    ensures var p := Wire(NestedContext(ctx, ds, ext.normalizeUrlPath), d);
      d.absolute ==>
        RequestUrl(p, body, ext) == Template(ctx.originalBase)
          + PathSegment(d.path, ext.normalizeUrlPath) + IdSegment(d.verb, body, ext.coerce)
  {
    NestedBasesCompose(ctx, ds, ext.normalizeUrlPath);
  }

  /**
   * Written request options replace the context's options wholesale: the request's headers
   * are the default `content-type`, the written options' headers and the per-call headers,
   * so a header only the context sets never reaches the request.
   */
  lemma WrittenOptionsReplaceContext<V>(ctx: Context, d: Definition, body: Body<V>, call: Option<RequestInit>,
                                        ext: Externals<V>)
    requires d.requestOptions.Written?
    ensures var own := HeadersOf(Resolve(d.requestOptions.value));
      forall k :: k in BuildRequest(Wire(ctx, d), body, call, ext).headers <==>
        k == "content-type" || k in own || k in HeadersOf(call)
  {
  }

  /**
   * A relative component whose `base` prop is written as `undefined` does not fall back to
   * the context's base: its request URL is the text `undefined` followed by its own path
   * and id segments.
   */
  lemma UndefinedBasePropIsKept<V>(ctx: Context, d: Definition, body: Body<V>, ext: Externals<V>)
    requires !d.absolute && d.base == Written(None)
    ensures RequestUrl(Wire(ctx, d), body, ext)
      == "undefined" + PathSegment(d.path, ext.normalizeUrlPath) + IdSegment(d.verb, body, ext.coerce)
  {
  }
}
