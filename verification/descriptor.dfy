/**
 * The request `mutate` builds (src/Mutate.tsx:125-137): URL, method, body, the other
 * request options, and the headers, each merged from the computed defaults, the
 * provider's `requestOptions` and the per-call options.
 */
module Descriptor {
  import opened Wrappers
  import opened Config
  import opened ObjectSpread
  import opened Paths

  /** The request handed to the transport: its URL, its options other than headers, and its headers. */
  datatype Request = Request(url: string, props: map<string, Prop>, headers: Headers)

  /** The request body: a structured value as JSON text, a string as itself, `undefined` when absent. */
  function SerializeBody<V>(body: Body<V>, stringify: V -> string): (p: Prop)
    ensures p.Undefined? <==> body.Absent?
    ensures body.Text? ==> p == Str(body.text)
    ensures body.Structured? ==> p == Str(stringify(body.value))
  {
    match body
    case Absent => Undefined
    case Text(t) => Str(t)
    case Structured(v) => Str(stringify(v))
  }

  /** The default `content-type`: JSON exactly for a structured body, plain text otherwise. */
  function DefaultContentType<V>(body: Body<V>): (ct: string)
    ensures ct == "application/json" <==> body.Structured?
    ensures ct == "text/plain" <==> !body.Structured?
  {
    if body.Structured? then "application/json" else "text/plain"
  }

  /**
   * The provider's options for this request: a producer is called, an object used as is,
   * and an absent prop gives `undefined`. Properties and headers are read from this one
   * resolved object, since a pure producer returns the same object on both calls.
   */
  function Resolve(o: RequestOptions): (r: Option<RequestInit>)
    ensures r.None? <==> o.NoOptions?
    ensures o.Static? ==> r == Some(o.init)
    ensures o.Producer? ==> r == Some(o.produce())
  {
    match o
    case NoOptions => None
    case Static(init) => Some(init)
    case Producer(produce) => Some(produce())
  }

  /** The non-header properties of optional options (spreading `undefined` adds nothing). */
  function PropsOf(init: Option<RequestInit>): map<string, Prop> {
    if init.Some? then init.value.props else map[]
  }

  /** The headers of optional options (spreading missing headers adds nothing). */
  function HeadersOf(init: Option<RequestInit>): Headers {
    if init.Some? && init.value.headers.Some? then init.value.headers.value else map[]
  }

  /**
   * The request headers: default `content-type`, then provider headers, then per-call
   * headers, each later layer overriding the same header name.
   */
  function MergedHeaders<V>(body: Body<V>, options: RequestOptions, call: Option<RequestInit>): (h: Headers)
    ensures var provider := HeadersOf(Resolve(options));
      forall k :: k in h <==> k == "content-type" || k in provider || k in HeadersOf(call)
    ensures forall k :: k in HeadersOf(call) ==> h[k] == HeadersOf(call)[k]
    ensures var provider := HeadersOf(Resolve(options));
      forall k :: k in provider && k !in HeadersOf(call) ==> h[k] == provider[k]
    ensures "content-type" !in HeadersOf(Resolve(options)) && "content-type" !in HeadersOf(call) ==>
      h["content-type"] == DefaultContentType(body)
  {
    var defaults := map["content-type" := DefaultContentType(body)];
    var provider := HeadersOf(Resolve(options));
    SpreadOfThree(defaults, provider, HeadersOf(call));
    Spread([defaults, provider, HeadersOf(call)])
  }

  /**
   * The non-header request options: `{method, body}`, then the provider's options, then the
   * per-call options, later ones overriding; any `headers` among them is replaced by the
   * merged headers and so is not kept here.
   */
  function MergedProps<V>(verb: Verb, body: Body<V>, options: RequestOptions, call: Option<RequestInit>,
                          stringify: V -> string): (m: map<string, Prop>)
    ensures "headers" !in m
    ensures "method" in m && "body" in m
    ensures var provider := PropsOf(Resolve(options));
      forall k :: k != "headers" ==> (k in m <==> k == "method" || k == "body" || k in provider || k in PropsOf(call))
    ensures forall k :: k in PropsOf(call) && k != "headers" ==> m[k] == PropsOf(call)[k]
    ensures var provider := PropsOf(Resolve(options));
      forall k :: k in provider && k !in PropsOf(call) && k != "headers" ==> m[k] == provider[k]
    ensures "method" !in PropsOf(Resolve(options)) && "method" !in PropsOf(call) ==> m["method"] == Str(verb.Name())
    ensures "body" !in PropsOf(Resolve(options)) && "body" !in PropsOf(call) ==> m["body"] == SerializeBody(body, stringify)
  {
    var computed := map["method" := Str(verb.Name()), "body" := SerializeBody(body, stringify)];
    var provider := PropsOf(Resolve(options));
    SpreadOfThree(computed, provider, PropsOf(call));
    Spread([computed, provider, PropsOf(call)]) - {"headers"}
  }

  /**
   * The request `mutate(body, call)` hands to the transport. It goes to the request URL and
   * always carries a method, a body property and a `content-type`. Per-call options and
   * headers win over the provider's, which win over the computed ones. Where no options
   * override them, the method is the verb, the body is the serialized argument and the
   * content type follows the argument, whatever the verb.
   */
  function BuildRequest<V>(p: MutateProps, body: Body<V>, call: Option<RequestInit>, ext: Externals<V>): (r: Request)
    ensures r.url == RequestUrl(p, body, ext)
    ensures RequestBase(p) <= r.url
    ensures var provider := PropsOf(Resolve(p.requestOptions));
      forall k :: k != "headers" ==> (k in r.props <==> k == "method" || k == "body" || k in provider || k in PropsOf(call))
    ensures forall k :: k in PropsOf(call) && k != "headers" ==> r.props[k] == PropsOf(call)[k]
    ensures var provider := PropsOf(Resolve(p.requestOptions));
      forall k :: k in provider && k !in PropsOf(call) && k != "headers" ==> r.props[k] == provider[k]
    ensures var provider := HeadersOf(Resolve(p.requestOptions));
      forall k :: k in r.headers <==> k == "content-type" || k in provider || k in HeadersOf(call)
    ensures forall k :: k in HeadersOf(call) ==> r.headers[k] == HeadersOf(call)[k]
    ensures var provider := HeadersOf(Resolve(p.requestOptions));
      forall k :: k in provider && k !in HeadersOf(call) ==> r.headers[k] == provider[k]
    ensures "method" in r.props && "body" in r.props && "headers" !in r.props
    ensures "content-type" in r.headers
    ensures "method" !in PropsOf(Resolve(p.requestOptions)) && "method" !in PropsOf(call) ==>
      r.props["method"] == Str(p.verb.Name())
    ensures "body" !in PropsOf(Resolve(p.requestOptions)) && "body" !in PropsOf(call) ==>
      r.props["body"] == SerializeBody(body, ext.stringify)
    ensures "content-type" !in HeadersOf(Resolve(p.requestOptions)) && "content-type" !in HeadersOf(call) ==>
      r.headers["content-type"] == DefaultContentType(body)
  {
    Request(
      RequestUrl(p, body, ext),
      MergedProps(p.verb, body, p.requestOptions, call, ext.stringify),
      MergedHeaders(body, p.requestOptions, call))
  }

  /**
   * The verb decides only the method and whether an id is appended to the URL: the headers,
   * the body and every other option are the same for all four verbs, DELETE included.
   */
  lemma VerbOnlyChangesMethodAndUrl<V>(p: MutateProps, other: Verb, body: Body<V>,
                                      call: Option<RequestInit>, ext: Externals<V>)
    ensures var r1 := BuildRequest(p, body, call, ext);
      var r2 := BuildRequest(p.(verb := other), body, call, ext);
      && r1.headers == r2.headers
      && (forall k :: k != "method" ==> (k in r1.props <==> k in r2.props))
      && (forall k :: k != "method" && k in r1.props ==> r1.props[k] == r2.props[k])
  {
    var o := p.requestOptions;
    var r1 := BuildRequest(p, body, call, ext);
    var r2 := BuildRequest(p.(verb := other), body, call, ext);
    var c1 := map["method" := Str(p.verb.Name()), "body" := SerializeBody(body, ext.stringify)];
    var c2 := map["method" := Str(other.Name()), "body" := SerializeBody(body, ext.stringify)];
    SpreadOfThree(c1, PropsOf(Resolve(o)), PropsOf(call));
    SpreadOfThree(c2, PropsOf(Resolve(o)), PropsOf(call));
    assert r1.props == (c1 + PropsOf(Resolve(o)) + PropsOf(call)) - {"headers"};
    assert r2.props == (c2 + PropsOf(Resolve(o)) + PropsOf(call)) - {"headers"};
  }

  /**
   * Without overriding options, a DELETE with a structured argument both sends it as JSON
   * with a JSON content type and appends its string form to the URL.
   */
  lemma DeleteSendsObject<V>(p: MutateProps, v: V, ext: Externals<V>)
    requires p.verb == DELETE && p.requestOptions.NoOptions?
    ensures var r := BuildRequest(p, Structured(v), None, ext);
      && r.props["body"] == Str(ext.stringify(v))
      && r.headers == map["content-type" := "application/json"]
      && r.url == RequestUrl(p, Absent, ext) + "/" + ext.coerce(v)
  {
    var r := BuildRequest(p, Structured(v), None, ext);
    DeleteAppendsId(p, Structured(v), ext);
    assert HeadersOf(Resolve(p.requestOptions)) == map[] && HeadersOf(None) == map[];
    assert PropsOf(Resolve(p.requestOptions)) == map[] && PropsOf(None) == map[];
    assert r.headers.Keys == {"content-type"};
  }

  /**
   * Without overriding options, a DELETE with a non-empty string id sends the id as a
   * plain-text body as well as appending it to the URL.
   */
  lemma DeleteSendsStringId<V>(p: MutateProps, id: string, ext: Externals<V>)
    requires p.verb == DELETE && p.requestOptions.NoOptions? && id != ""
    ensures var r := BuildRequest(p, Text(id), None, ext);
      && r.props["body"] == Str(id)
      && r.headers == map["content-type" := "text/plain"]
      && r.url == RequestUrl(p, Absent, ext) + "/" + id
  {
    var r := BuildRequest(p, Text(id), None, ext);
    DeleteAppendsId(p, Text(id), ext);
    assert HeadersOf(Resolve(p.requestOptions)) == map[] && HeadersOf(None) == map[];
    assert PropsOf(Resolve(p.requestOptions)) == map[] && PropsOf(None) == map[];
    assert r.headers.Keys == {"content-type"};
  }

  /**
   * Header layers: ambient `{a: "1", b: "1"}` and per-call `{a: "3"}` over a JSON default
   * give `a` from the call, `b` from the provider, and the default `content-type`.
   */
  lemma HeaderPrecedenceExample<V>(v: V)
    ensures
      var provider := RequestInit(map[], Some(map["a" := "1", "b" := "1"]));
      var call := RequestInit(map[], Some(map["a" := "3"]));
      MergedHeaders(Structured(v), Static(provider), Some(call))
        == map["a" := "3", "b" := "1", "content-type" := "application/json"]
  {
    var provider := RequestInit(map[], Some(map["a" := "1", "b" := "1"]));
    var call := RequestInit(map[], Some(map["a" := "3"]));
    var h := MergedHeaders(Structured(v), Static(provider), Some(call));
    assert h.Keys == {"a", "b", "content-type"};
  }
}
