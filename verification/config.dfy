/**
 * The inputs of one `<Mutate>` component (src/Mutate.tsx): its props, the request options
 * it is handed, the argument of `mutate`, and the collaborators that live outside it.
 */
module Config {
  import opened Wrappers

  /** The four HTTP verbs a mutation may use. */
  datatype Verb = POST | PUT | PATCH | DELETE {
    /** The method name sent on the wire. */
    function Name(): string {
      match this
      case POST => "POST"
      case PUT => "PUT"
      case PATCH => "PATCH"
      case DELETE => "DELETE"
    }
  }

  /**
   * The argument of `mutate`: the request body, which for DELETE is also the resource id.
   * `Absent` is `undefined`; `Structured` is a non-null object, of the abstract type `V`.
   */
  datatype Body<V> = Absent | Text(text: string) | Structured(value: V)

  /** A non-header property of a request-options object; `Undefined` is a property whose value is `undefined`. */
  datatype Prop = Undefined | Str(s: string)

  /** Request headers given as a plain object: header name to value. */
  type Headers = map<string, string>

  /**
   * A `RequestInit` object: its properties other than `headers`, and its `headers`
   * property when it has one.
   */
  datatype RequestInit = RequestInit(props: map<string, Prop>, headers: Option<Headers>)

  /**
   * The `requestOptions` prop: absent, an options object, or a function producing one.
   * A Dafny function value is pure, so calling it twice yields the same object.
   */
  datatype RequestOptions = NoOptions | Static(init: RequestInit) | Producer(produce: () -> RequestInit)

  /**
   * The props `ContextlessMutate` reads. `path` is "" when the prop is absent, which the
   * component treats exactly like an empty path; `absolute` is false when absent.
   */
  datatype MutateProps = MutateProps(
    path: string,
    verb: Verb,
    base: Option<string>,
    absolute: bool,
    requestOptions: RequestOptions,
    originalBase: Option<string>)

  /**
   * Behaviour the component borrows and this model does not define: the URL path
   * normaliser, `JSON.stringify` of a structured value, and JavaScript's conversion of a
   * structured value to a string (what `"/" + body` does to an object).
   */
  datatype Externals<!V> = Externals(
    normalizeUrlPath: string -> string,
    stringify: V -> string,
    coerce: V -> string)

  /** The text a template literal gives for a string that may be `undefined`. */
  function Template(v: Option<string>): string {
    match v
    case Some(s) => s
    case None => "undefined"
  }

  /** JavaScript truthiness of the argument of `mutate`: objects are always truthy. */
  predicate Truthy<V>(body: Body<V>) {
    match body
    case Absent => false
    case Text(t) => t != ""
    case Structured(_) => true
  }

  /** The text of `"" + body` for a present argument. */
  function Coerced<V>(body: Body<V>, coerce: V -> string): string {
    match body
    case Absent => "undefined"
    case Text(t) => t
    case Structured(v) => coerce(v)
  }
}
