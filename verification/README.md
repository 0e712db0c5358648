# restful-react `<Mutate>`: a Dafny model

This project models the logic of the `<Mutate>` component of restful-react
(`src/Mutate.tsx`). A `<Mutate>` sends one POST, PUT, PATCH or DELETE request each time
its `mutate(body, options)` function is called. It publishes `{loading, error}` while the
call runs and reports `{response, absolutePath}` to its children.

The model covers four parts:

- **URL construction** (`Paths`). The request base is `originalBase` in absolute mode and
  the `base` prop otherwise. A non-empty path adds `/` and the normalized path. Only a
  DELETE with a truthy argument appends `/` and the argument's text. `absolutePath` always
  inserts `/`, even when the path is empty.
- **Request assembly** (`Descriptor`). The body is serialized as JSON for a structured
  value and passed through for a string, for every verb. The default `content-type`
  follows from the body. Non-header options spread as `{method, body}` < provider
  options < per-call options. Headers spread as default `content-type` < provider headers
  < per-call headers. JavaScript object spread is modelled once, in `ObjectSpread`.
- **Lifecycle** (`Lifecycle`). A call first publishes `error := null, loading := true`.
  A non-ok response with a JSON body then publishes `loading := false` and the
  `"Failed to fetch: <status> <statusText>"` error, and the promise rejects with the raw
  response. An ok response publishes only `loading := false`, and the promise resolves.
  A dispatch failure or a non-JSON error body rejects without a second publication, so
  `loading` stays on. No path writes `response`.
- **Scope wiring** (`Scope`). The inner component's props are the context, then the
  written props, then the context's `originalBase`. A written prop replaces the context's
  value wholesale. This holds even when it is written as `undefined`, and it holds for
  `requestOptions`, whose headers are then not merged with the context's. Nested components see the base
  extended by `/` and the normalized path, except below an absolute `<Mutate>`.

The helpers `normalizeUrlPath`, `JSON.stringify` and JavaScript's string conversion of an
object are parameters of the model (`Config.Externals`). The model claims nothing about
them. A structured value has an abstract type `V`. A missing `base` or `originalBase` is
`None`; it interpolates as the text `undefined`, as a template literal does.

The code and its own comments or type names disagree in three places. The model follows
the code in each case:

- The `absolute` prop is documented (lines 47-50) as fetching the base URL directly,
  ignoring the relative nesting. In absolute mode the code fetches from `originalBase`
  instead (lines 119 and 161), and the `base` prop is not read. The code uses `base` only
  in relative mode, where it overrides the context's base (line 184).
- `response` is documented as the whole response of the request (line 22). No line ever
  sets it, so it stays `null`.
- The DELETE argument is named `resourceId` (line 69), while the other verbs' argument is
  named `body` (line 84). The code still sends the DELETE argument as the request body,
  as well as appending it to the URL, because line 127 does not depend on the verb.

## Model

| member | source | states |
|---|---|---|
| Paths.RequestUrl | src/Mutate.tsx:119-124 | The URL starts with `originalBase` in absolute mode and with `base` otherwise. A non-empty path continues it with `/` and the normalized path. With an empty path and no id it is exactly the base. A DELETE with a non-empty string id ends in `/` and the id. |
| Paths.DeleteAppendsId | src/Mutate.tsx:121-124 | A DELETE with a truthy argument requests the argument-free URL plus `/` and the argument's text. Any other verb, or a falsy argument (absent or `""`), leaves the URL unchanged. |
| Paths.BaseSelection | src/Mutate.tsx:119 | Absolute mode never reads the `base` prop, and relative mode never reads `originalBase`. |
| Paths.AbsolutePath | src/Mutate.tsx:161 | The reported path is the request base followed by `/`, even for an empty path. |
| Paths.AbsolutePathVersusRequestUrl | src/Mutate.tsx:161 | When no id is appended, `absolutePath` equals the requested URL for a non-empty path. For an empty path it equals that URL plus `/` and the normalized empty path. |
| Scope.Wire | src/Mutate.tsx:184 | A written `base` or `requestOptions`, `undefined` included, replaces the context's value, and an unwritten one takes the context's. `originalBase` always comes from the context. |
| Scope.WrittenOptionsReplaceContext | src/Mutate.tsx:184 | With written request options, the request's headers are the default `content-type`, the written options' headers and the per-call headers. A header that only the context sets never reaches the request. |
| Scope.UndefinedBasePropIsKept | src/Mutate.tsx:184 | A relative component whose `base` is written as `undefined` requests exactly `undefined`, then its path segment, then its id segment. It does not fall back to the context's base. |
| Scope.ChildBase | src/Mutate.tsx:182 | Nested components get the context base unchanged in absolute mode. Otherwise they get a base that extends it with `/`. |
| Scope.ChildBaseIsAbsolutePath | src/Mutate.tsx:182 | A relative component without its own `base` hands its children exactly the `absolutePath` it reports. |
| Scope.NestedBasesCompose | src/Mutate.tsx:180-184 | Below any chain of components, the base is the outer base plus one `/`-segment per enclosing relative component. The root base is handed down unchanged. |
| Scope.NestedRequestUrl | src/Mutate.tsx:119-124 | A nested relative component without its own `base` requests the outer base, then the enclosing segments, then its own path and id. A nested absolute one requests from the root base, whatever the nesting and its own `base`. |
| ObjectSpread.SpreadLastWins | src/Mutate.tsx:128-135 | A spread holds exactly the keys some layer sets, each with the value of the last layer that sets it. |
| ObjectSpread.SpreadOfThree | src/Mutate.tsx:130-136 | Three spreads equal the right-biased union of the three objects. |
| Decimal.Show | src/Mutate.tsx:145 | A status renders as a non-empty run of decimal digits with no leading zero. |
| Decimal.ParseShow | src/Mutate.tsx:145 | Reading the rendered status back gives the status. |
| Descriptor.Resolve | src/Mutate.tsx:128-134 | Function-valued options are called, object options are used as they are, and absent options give `undefined`. |
| Descriptor.BuildRequest | src/Mutate.tsx:119-137 | The request goes to the request URL of lines 119-124. It always has a method, a body property and a `content-type`. Per-call options and headers win, then the provider's, then the computed `{method, body}` and default `content-type`. Without overriding options, the method is the verb, the body is the serialized argument and the content type follows the argument. |
| Descriptor.VerbOnlyChangesMethodAndUrl | src/Mutate.tsx:125-137 | Changing the verb changes only the method and the URL. The headers, the body and every other option are the same for all four verbs, DELETE included. |
| Descriptor.SerializeBody | src/Mutate.tsx:127 | A structured body becomes its JSON text and a string passes through. An absent body gives `undefined`, and only an absent one. |
| Descriptor.DefaultContentType | src/Mutate.tsx:131 | The default is `application/json` exactly for a structured body, and `text/plain` otherwise, including when there is no body. |
| Descriptor.MergedHeaders | src/Mutate.tsx:130-136 | The headers are `content-type` plus every provider and per-call header. Per-call values win, then provider values. The default `content-type` survives only if no layer sets it. |
| Descriptor.MergedProps | src/Mutate.tsx:125-137 | The options always hold `method` and `body`, plus every provider and per-call option. Per-call values win, then provider values, so either may replace `method` or `body`. `headers` is never taken from them. |
| Descriptor.DeleteSendsObject | src/Mutate.tsx:121-137 | Without extra options, a DELETE with an object sends it as JSON with a JSON content type and also appends its string form to the URL. |
| Descriptor.DeleteSendsStringId | src/Mutate.tsx:121-137 | Without extra options, a DELETE with a non-empty string id sends the id as a plain-text body and also appends it to the URL. |
| Descriptor.HeaderPrecedenceExample | src/Mutate.tsx:130-136 | Provider `{a:1, b:1}` and per-call `{a:3}` over an object body give `{a:3, b:1, content-type: application/json}`. |
| Lifecycle.FailureMessage | src/Mutate.tsx:145 | The message begins with `Failed to fetch: `, the decimal status and a space. |
| Lifecycle.FailureMessageRoundTrip | src/Mutate.tsx:145 | The status and status text can be read back from the message unchanged. |
| Lifecycle.Begin | src/Mutate.tsx:117 | A call first clears the error and turns loading on, leaving `response` alone. |
| Lifecycle.Invoke | src/Mutate.tsx:115-152 | A call publishes the begin state, then at most one terminal state. An ok response resolves with that response and only turns loading off. A non-ok JSON response publishes loading off with `{data, "Failed to fetch: …"}` and rejects with the raw response. A dispatch failure or a non-JSON error body rejects without a terminal publication. `response` is never written. |
| Lifecycle.ResponseNeverWritten | src/Mutate.tsx:109-150 | After any number of sequential calls, `response` still holds its starting value. |
| Lifecycle.LastCallDecides | src/Mutate.tsx:117-150 | After sequential calls, loading is on exactly when the last call failed to dispatch or had a non-JSON error body. The error is set exactly when the last response was non-ok with a JSON body, and it then carries that response's data and message. |
| Lifecycle.Render | src/Mutate.tsx:155-162 | Children see the state's `loading`, `error` and `response` as they are. They also see an `absolutePath` made of the request base, `/` and the normalized path. |
| Lifecycle.RenderedResponseIsNull | src/Mutate.tsx:156-161 | The `response` shown to children is `null`, however many calls have been made. |

## Left out

- React rendering, the `RestfulReactConsumer`/`Provider` machinery and `Context.tsx`. Context.tsx is not part of this model. The provider is taken to pass its props through as the new context (line 180-183). Only the wiring of lines 182 and 184 is modelled.
- `fetch`, `Request`, `Response` and `response.json()` are foreign. A response is the record `{ok, status, statusText, json}`, where `json` is None when the body is not JSON. The transport's result is an input of `Lifecycle.Invoke`.
- The `Request` constructor's header handling is left out. It compares header names case-insensitively and combines duplicates. The model compares header names as exact object keys, as the object literal of lines 130-136 does.
- `normalizeUrlPath`, `JSON.stringify` and the string form of an object are uninterpreted parameters with no properties. These helpers are not part of this model.
- `null`, number and boolean arguments to `mutate` are left out. The model's arguments are absent, a string, or a non-null object.
- Header values given as a `Headers` instance or an array of pairs are left out. Only plain-object headers are modelled. Non-header option values are strings or `undefined`.
- Overlapping `mutate` calls on one component (last writer wins) and asynchronous suspension are concurrency. `Lifecycle.Sequential` covers only calls that start after the previous call settled.
- A `requestOptions` function is modelled as pure. The source calls it twice (lines 128 and 133), and the model does not cover side effects or exceptions from those calls. It also does not cover a function that returns `undefined`, which makes line 133 throw.
- Exceptions thrown synchronously by `new Request` or `fetch` before any response are left out. They reject the promise like a dispatch failure, which the model does cover.
- The error that `response.json()` throws for a non-JSON error body is not represented. The promise rejects with that error (line 142). The model's `RejectedByJson` outcome carries the response only as context.
