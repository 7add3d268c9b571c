/** What the four data hooks share: the value a query or mutation function
    ends with, the `{ ...defaults, ...options }` merge that lets a caller's
    options replace the hook's own, the query-cache calls made in
    `onSuccess`, and the notices shown to the user. React Query and the
    toast libraries are not part of this model; their calls are recorded
    in order. */
module HookKit {
  import opened Text
  import opened HttpClient

  /** What a query or mutation function throws: an `Error` it builds
      itself (with the `statusCode` some hooks attach), or the client's
      rejection, passed on by `await`. */
  datatype HookError = NewError(message: string, statusCode: Option<int>) | PassedOn(failure: Failure)

  datatype Outcome = Returned(data: string) | Thrown(error: HookError)

  /** `error.message` */
  function ErrorMessage(e: HookError): string
  {
    match e
    case NewError(message, _) => message
    case PassedOn(f) => FailureMessage(f)
  }

  /** `response?.statusCode` and `response?.message` on what the client
      resolved to. */
  function StatusOf(v: Option<Envelope>): Option<int>
  {
    if v.Some? then v.value.statusCode else None
  }

  function MessageOf(v: Option<Envelope>): Option<string>
  {
    if v.Some? then v.value.message else None
  }

  /** `{ url, data: variables, headers }`, the request of the post and
      patch hooks: no basic auth, and no headers of its own when the
      caller gives none (`headers = {}` in usePostData, an undefined
      `headers` in usePatchData). */
  function BodyRequest(url: string, variables: Payload, headers: Option<map<string, string>>): (c: Config)
    ensures c.url == url && c.data == variables && !c.basicAuth && c.verb == None
    ensures c.headers == if headers.Some? then headers.value else map[]
  {
    Config(None, url, variables, if headers.Some? then headers.value else map[], false)
  }

  /** `{ ...defaults, ...overrides }`: every key of either, the override's
      value wherever it has one. */
  function Spread<V>(defaults: map<string, V>, overrides: map<string, V>): (r: map<string, V>)
    ensures r.Keys == defaults.Keys + overrides.Keys
    ensures forall k :: k in overrides ==> k in r && r[k] == overrides[k]
    ensures forall k :: k in defaults && k !in overrides ==> k in r && r[k] == defaults[k]
  {
    defaults + overrides
  }

  /** A callback in the options handed to `useMutation`: the hook's own, or
      one the caller supplied through `mutationOptions`. */
  datatype Handler = Own | Supplied(callback: string)

  const MutationFn: string := "mutationFn"
  const OnSuccess: string := "onSuccess"
  const OnError: string := "onError"

  /** `{ mutationFn, onSuccess, onError, ...mutationOptions }`, with each
      of the caller's options given by a name for what it holds. An absent
      `mutationOptions` spreads nothing, as `{}` does. */
  function Handlers(mutationOptions: map<string, string>): (h: map<string, Handler>)
    ensures h.Keys == {MutationFn, OnSuccess, OnError} + mutationOptions.Keys
    ensures forall k :: k in h ==> (h[k] == Own <==> k !in mutationOptions)
  {
    var supplied := map k | k in mutationOptions :: Supplied(mutationOptions[k]);
    Spread(map[MutationFn := Own, OnSuccess := Own, OnError := Own], supplied)
  }

  /** The hook's own `name` callback runs unless the caller supplied one. */
  predicate RunsOwn(mutationOptions: map<string, string>, name: string)
  {
    var h := Handlers(mutationOptions);
    name in h && h[name] == Own
  }

  lemma RunsOwnIff(mutationOptions: map<string, string>, name: string)
    requires name == MutationFn || name == OnSuccess || name == OnError
    ensures RunsOwn(mutationOptions, name) <==> name !in mutationOptions
  {
  }

  // ---------------------------------------------------------------------
  // The query cache.

  datatype CacheOp = RefetchOp | InvalidateOp

  /** `queryClient.refetchQueries({ queryKey })` or
      `queryClient.invalidateQueries({ queryKey })`. */
  datatype CacheCall = CacheCall(op: CacheOp, queryKey: seq<string>)

  /** The calls `queries.forEach(q => op({ queryKey: [q] }))` makes. */
  function CallsFor(op: CacheOp, queries: seq<string>): (calls: seq<CacheCall>)
    ensures |calls| == |queries|
    ensures forall i :: 0 <= i < |queries| ==> calls[i] == CacheCall(op, [queries[i]])
  {
    if queries == [] then [] else CallsFor(op, queries[..|queries| - 1]) + [CacheCall(op, [queries[|queries| - 1]])]
  }

  /** The `QueryClient` of `useQueryClient()`, reduced to the calls made on
      it. */
  class QueryClient {
    var calls: seq<CacheCall>

    constructor ()
      ensures calls == []
    {
      calls := [];
    }

    method Call(op: CacheOp, query: string)
      modifies this
      ensures calls == old(calls) + [CacheCall(op, [query])]
    {
      calls := calls + [CacheCall(op, [query])];
    }

    /** The `forEach` loop of the hooks' `onSuccess`. */
    method ForEach(op: CacheOp, queries: seq<string>)
      modifies this
      ensures calls == old(calls) + CallsFor(op, queries)
    {
      var i := 0;
      while i < |queries|
        invariant 0 <= i <= |queries|
        invariant calls == old(calls) + CallsFor(op, queries[..i])
      {
        assert queries[..i + 1][..i] == queries[..i];
        Call(op, queries[i]);
        i := i + 1;
      }
      assert queries[..i] == queries;
    }
  }

  // ---------------------------------------------------------------------
  // What the user sees.

  /** A `useToast` toast, a sonner `toast.error`, or a `console.error`
      line. */
  datatype Notice =
    | Toast(title: string, description: Option<string>, variant: string)
    | ToastError(text: string)
    | ConsoleError(text: string)

  class Feedback {
    var shown: seq<Notice>

    constructor ()
      ensures shown == []
    {
      shown := [];
    }

    method Show(n: Notice)
      modifies this
      ensures shown == old(shown) + [n]
    {
      shown := shown + [n];
    }
  }

  /** Everything one `mutate` call leads to: the mutation's outcome
      (`None` when the caller's own `mutationFn` ran, whose behaviour is the
      caller's), the notices shown, and the cache calls made. */
  datatype Effects = Effects(outcome: Option<Outcome>, notices: seq<Notice>, calls: seq<CacheCall>)

  // ---------------------------------------------------------------------
  // The status-tagged errors of the update and delete hooks.

  /** An `Error` object, with the `statusCode` property `Object.assign`
      can add to it. */
  class ErrorObject {
    var message: string
    var statusCode: Option<int>

    /** `new Error(message)` */
    constructor (message: string)
      ensures this.message == message && statusCode == None
    {
      this.message := message;
      statusCode := None;
    }

    /** `Object.assign(error, { statusCode, message })`, where `message`
        is present only when given. */
    method Assign(code: int, newMessage: Option<string>)
      modifies this
      ensures statusCode == Some(code)
      ensures message == if newMessage.Some? then newMessage.value else old(message)
    {
      statusCode := Some(code);
      if newMessage.Some? {
        message := newMessage.value;
      }
    }
  }

  /** What the update and delete mutation functions make of what the
      client settled to: `data` on status 200; otherwise an error whose
      message is the response's or the hook's `fallback`, tagged 400 on a
      400 and replaced by "Unauthorized" and tagged 401 on a 401. */
  function StatusOutcome(settled: Settled, fallback: string): (o: Outcome)
    ensures settled.Rejected? ==> o == Thrown(PassedOn(settled.reason))
    ensures o.Returned? <==> settled.Resolved? && StatusOf(settled.value) == Some(200)
    ensures o.Returned? ==> o.data == settled.value.value.data
    ensures settled.Resolved? && StatusOf(settled.value) == Some(400) ==>
      o == Thrown(NewError(OrElse(MessageOf(settled.value), fallback), Some(400)))
    ensures settled.Resolved? && StatusOf(settled.value) == Some(401) ==>
      o == Thrown(NewError("Unauthorized", Some(401)))
    ensures settled.Resolved? && StatusOf(settled.value) !in {Some(200), Some(400), Some(401)} ==>
      o == Thrown(NewError(OrElse(MessageOf(settled.value), fallback), None))
  {
    match settled
    case Rejected(reason) => Thrown(PassedOn(reason))
    case Resolved(v) =>
      var message := OrElse(MessageOf(v), fallback);
      if StatusOf(v) == Some(200) then Returned(v.value.data)
      else if StatusOf(v) == Some(400) then Thrown(NewError(message, Some(400)))
      else if StatusOf(v) == Some(401) then Thrown(NewError("Unauthorized", Some(401)))
      else Thrown(NewError(message, None))
  }

  /** The client only ever resolves to a success envelope (status 200 or
      201) or to `undefined`, so through it the 400 and 401 branches are
      never taken: no error the hooks build carries a status code. */
  lemma StatusTagsUnreachable(token: string, config: Config, server: Config -> Reply, fallback: string)
    ensures var o := StatusOutcome(Dispatch(token, config, server), fallback);
      !(o.Thrown? && o.error.NewError? && o.error.statusCode.Some?)
  {
    DispatchShape(token, config, server);
  }

  /** An invalidating mutation (the update and delete hooks): on success
      each listed query is invalidated, on error `onError` shows the
      hook's `notice` for the thrown error. */
  function InvalidatingMutation(o: Outcome, refetchQueries: Option<seq<string>>, mutationOptions: map<string, string>, notice: HookError -> Notice): Effects
  {
    if !RunsOwn(mutationOptions, MutationFn) then Effects(None, [], [])
    else if o.Returned? then
      Effects(Some(o), [], if RunsOwn(mutationOptions, OnSuccess) && refetchQueries.Some? then CallsFor(InvalidateOp, refetchQueries.value) else [])
    else
      Effects(Some(o), if RunsOwn(mutationOptions, OnError) then [notice(o.error)] else [], [])
  }

  /** The `onSuccess` or `onError` of an invalidating mutation whose own
      mutation function ran and gave `o`. */
  method InvalidatingCallbacks(o: Outcome, client: QueryClient, feedback: Feedback, refetchQueries: Option<seq<string>>,
                               mutationOptions: map<string, string>, notice: HookError -> Notice)
    requires RunsOwn(mutationOptions, MutationFn)
    modifies client, feedback
    ensures var e := InvalidatingMutation(o, refetchQueries, mutationOptions, notice);
      feedback.shown == old(feedback.shown) + e.notices && client.calls == old(client.calls) + e.calls
  {
    if o.Returned? {
      if RunsOwn(mutationOptions, OnSuccess) && refetchQueries.Some? {
        client.ForEach(InvalidateOp, refetchQueries.value);
      }
    } else if RunsOwn(mutationOptions, OnError) {
      feedback.Show(notice(o.error));
    }
  }
}
