/**
 * The state a `<Mutate>` publishes while one `mutate` call runs (src/Mutate.tsx:109-117,
 * 139-151) and what the call's promise settles with, given what the transport returned.
 */
module Lifecycle {
  import opened Wrappers
  import Decimal
  import opened Config
  import opened Paths

  /** A transport response: its ok flag, status, status text, and its body read as JSON (None when it is not JSON). */
  datatype Response<D> = Response(ok: bool, status: nat, statusText: string, json: Option<D>)

  /** The error published for an unsuccessful response. */
  datatype FetchError<D> = FetchError(data: D, message: string)

  /** The component state `{response, error, loading}`. */
  datatype State<D> = State(response: Option<Response<D>>, error: Option<FetchError<D>>, loading: bool)

  /** What the transport gave back: a response, or a failure to dispatch the request at all. */
  datatype Transport<D, E> = Delivered(response: Response<D>) | DispatchFailed(reason: E)

  /**
   * How the promise returned by `mutate` settles: resolved with the response, rejected with
   * the raw unsuccessful response, rejected with the transport's own failure, or rejected
   * because an unsuccessful response's body could not be read as JSON. In that last case
   * the promise rejects with the error `response.json()` threw, which this model does not
   * represent; `RejectedByJson` carries the response only as context.
   */
  datatype Outcome<D, E> =
    | Resolved(response: Response<D>)
    | RejectedWithResponse(response: Response<D>)
    | RejectedByTransport(reason: E)
    | RejectedByJson(response: Response<D>)

  /** One call: the states it publishes, in order, and how its promise settles. */
  datatype Run<D, E> = Run(published: seq<State<D>>, outcome: Outcome<D, E>)

  /** The state a component starts with. */
  function Initial<D>(): State<D> {
    State(None, None, false)
  }

  const FailurePrefix := "Failed to fetch: "

  /** The message of the published error: prefix, decimal status, a space, the status text. */
  function FailureMessage(status: nat, statusText: string): (m: string)
    ensures FailurePrefix + Decimal.Show(status) + " " <= m
  {
    FailurePrefix + Decimal.Show(status) + " " + statusText
  }

  /** The index of the first space in `s`, or `|s|` when it has none. */
  function FirstSpace(s: string): (i: nat)
    ensures i <= |s|
    ensures i < |s| ==> s[i] == ' '
    ensures forall j :: 0 <= j < i ==> s[j] != ' '
    decreases |s|
  {
    if |s| == 0 || s[0] == ' ' then 0 else 1 + FirstSpace(s[1..])
  }

  /** Reads a failure message back into its status and status text. */
  function ParseFailureMessage(m: string): Option<(nat, string)> {
    if |m| < |FailurePrefix| || m[..|FailurePrefix|] != FailurePrefix then None
    else
      var rest := m[|FailurePrefix|..];
      var i := FirstSpace(rest);
      if i == |rest| then None
      else match Decimal.Parse(rest[..i])
        case None => None
        case Some(status) => Some((status, rest[i + 1..]))
  }

  /** The failure message loses nothing: status and status text can be read back from it. */
  lemma FailureMessageRoundTrip(status: nat, statusText: string)
    ensures ParseFailureMessage(FailureMessage(status, statusText)) == Some((status, statusText))
  {
    var digits := Decimal.Show(status);
    var m := FailureMessage(status, statusText);
    var rest := m[|FailurePrefix|..];
    assert rest == digits + " " + statusText;
    assert rest[|digits|] == ' ';
    assert FirstSpace(rest) == |digits|;
    assert rest[..|digits|] == digits;
    assert rest[|digits| + 1..] == statusText;
    Decimal.ParseShow(status);
  }

  /** The first publication of every call: the error is cleared and loading starts; nothing else changes. */
  function Begin<D>(s: State<D>): (t: State<D>)
    ensures t.loading && t.error.None?
    ensures t.response == s.response
  {
    s.(error := None, loading := true)
  }

  /** One call of `mutate` from state `s`, given what the transport returned. */
  function Invoke<D, E>(s: State<D>, t: Transport<D, E>): (run: Run<D, E>)
    ensures 1 <= |run.published| <= 2
    ensures run.published[0] == Begin(s)
    ensures forall i :: 0 <= i < |run.published| ==> run.published[i].response == s.response
    ensures run.outcome.Resolved? <==> t.Delivered? && t.response.ok
    ensures run.outcome.RejectedWithResponse? <==> t.Delivered? && !t.response.ok && t.response.json.Some?
    ensures run.outcome.RejectedByJson? <==> t.Delivered? && !t.response.ok && t.response.json.None?
    ensures run.outcome.RejectedByTransport? <==> t.DispatchFailed?
    ensures t.Delivered? ==> !run.outcome.RejectedByTransport? && run.outcome.response == t.response
    ensures t.DispatchFailed? ==> run.outcome == RejectedByTransport(t.reason)
    ensures |run.published| == 2 <==> run.outcome.Resolved? || run.outcome.RejectedWithResponse?
    ensures |run.published| == 2 ==> !run.published[1].loading
    ensures run.outcome.Resolved? ==> run.published[1].error.None?
    ensures run.outcome.RejectedWithResponse? ==>
      run.published[1].error == Some(FetchError(t.response.json.value, FailureMessage(t.response.status, t.response.statusText)))
  {
    var started := Begin(s);
    match t
    case DispatchFailed(reason) => Run([started], RejectedByTransport(reason))
    case Delivered(response) =>
      if response.ok then
        Run([started, started.(loading := false)], Resolved(response))
      else
        match response.json
        case None => Run([started], RejectedByJson(response))
        case Some(data) =>
          var error := FetchError(data, FailureMessage(response.status, response.statusText));
          Run([started, started.(loading := false, error := Some(error))], RejectedWithResponse(response))
  }

  /** The state left once a call has finished publishing. */
  function After<D, E>(s: State<D>, t: Transport<D, E>): State<D> {
    var run := Invoke(s, t);
    run.published[|run.published| - 1]
  }

  /** The state after calls made one after another, each starting once the previous one settled. */
  function Sequential<D, E>(s: State<D>, ts: seq<Transport<D, E>>): State<D>
    decreases |ts|
  {
    if |ts| == 0 then s else Sequential(After(s, ts[0]), ts[1..])
  }

  /** Sequential calls compose: the last call acts on the state the earlier ones left. */
  lemma {:induction false} SequentialSnoc<D, E>(s: State<D>, ts: seq<Transport<D, E>>, t: Transport<D, E>)
    ensures Sequential(s, ts + [t]) == After(Sequential(s, ts), t)
    decreases |ts|
  {
    if |ts| > 0 {
      assert (ts + [t])[1..] == ts[1..] + [t];
      SequentialSnoc(After(s, ts[0]), ts[1..], t);
    }
  }

  /** No call ever writes `response`: it keeps the value it started with. */
  lemma {:induction false} ResponseNeverWritten<D, E>(s: State<D>, ts: seq<Transport<D, E>>)
    ensures Sequential(s, ts).response == s.response
    decreases |ts|
  {
    if |ts| > 0 {
      ResponseNeverWritten(After(s, ts[0]), ts[1..]);
    }
  }

  /**
   * After a run of calls, the error and loading flag depend on the last call alone: loading
   * stays on when that call's promise rejected without a terminal publication (dispatch
   * failure, or a body that is not JSON), and the error is set exactly when the last
   * response was unsuccessful with a JSON body.
   */
  lemma LastCallDecides<D, E>(s: State<D>, ts: seq<Transport<D, E>>, t: Transport<D, E>)
    ensures var last := Sequential(s, ts + [t]);
      last.loading <==> t.DispatchFailed? || (!t.response.ok && t.response.json.None?)
    ensures var last := Sequential(s, ts + [t]);
      last.error.Some? <==> t.Delivered? && !t.response.ok && t.response.json.Some?
    ensures var last := Sequential(s, ts + [t]);
      last.error.Some? ==>
        last.error.value == FetchError(t.response.json.value, FailureMessage(t.response.status, t.response.statusText))
  {
    SequentialSnoc(s, ts, t);
  }

  /** What the children of `<Mutate>` observe: `{loading, error}` and `{response, absolutePath}`. */
  datatype View<D> = View(loading: bool, error: Option<FetchError<D>>, response: Option<Response<D>>, absolutePath: string)

  function Render<D>(p: MutateProps, s: State<D>, normalize: string -> string): (v: View<D>)
    ensures v.loading == s.loading && v.error == s.error && v.response == s.response
    ensures RequestBase(p) + "/" <= v.absolutePath
    ensures v.absolutePath[|RequestBase(p)| + 1..] == normalize(p.path)
  {
    View(s.loading, s.error, s.response, AbsolutePath(p, normalize))
  }

  /** The `response` a component shows is `null` from the start, however many calls were made. */
  lemma RenderedResponseIsNull<D, E>(p: MutateProps, ts: seq<Transport<D, E>>, normalize: string -> string)
    ensures Render(p, Sequential(Initial<D>(), ts), normalize).response.None?
  {
    ResponseNeverWritten(Initial<D>(), ts);
  }
}
