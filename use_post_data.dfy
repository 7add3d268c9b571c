/** `usePostData` (src/hooks/usePostData.ts): a mutation that POSTs the
    variables, shows a toast for the response it receives, returns `data`
    on status 200 or 201 and throws otherwise; on success it refetches the
    listed queries, on error it shows a second toast built from the
    rejection. */
module PostHook {
  import opened Text
  import opened HttpClient
  import opened HookKit

  const PostFallback: string := "Failed to post data"
  const ErrorFallback: string := "An error occurred"

  /** `response?.statusCode === 200 || response?.statusCode === 201` */
  predicate Accepted(v: Option<Envelope>)
  {
    StatusOf(v) == Some(200) || StatusOf(v) == Some(201)
  }

  /** The toast the mutation function shows for the value it received. */
  function ResponseToast(v: Option<Envelope>): (n: Notice)
    ensures n.Toast? && n.description == MessageOf(v)
    ensures n.title == "Success" <==> Accepted(v)
    ensures n.title == "Error" <==> !Accepted(v)
    ensures n.variant == if Accepted(v) then "default" else "destructive"
  {
    if Accepted(v) then Toast("Success", MessageOf(v), "default")
    else Toast("Error", MessageOf(v), "destructive")
  }

  /** The mutation function's result for what `instance.post` settled to. */
  function PostOutcome(settled: Settled): (o: Outcome)
    ensures settled.Rejected? ==> o == Thrown(PassedOn(settled.reason))
    ensures o.Returned? <==> settled.Resolved? && Accepted(settled.value)
    ensures o.Returned? ==> o.data == settled.value.value.data
    ensures settled.Resolved? && !Accepted(settled.value) ==>
      o == Thrown(NewError(OrElse(MessageOf(settled.value), PostFallback), None))
  {
    match settled
    case Rejected(reason) => Thrown(PassedOn(reason))
    case Resolved(v) =>
      if Accepted(v) then Returned(v.value.data)
      else Thrown(NewError(OrElse(MessageOf(v), PostFallback), None))
  }

  /** `error?.response?.data?.message`: only an axios error that carries a
      response body has one. */
  function ResponseMessage(e: HookError): Option<string>
  {
    if e.PassedOn? && e.failure.HttpFailure? && e.failure.body.Some? then e.failure.body.value.message else None
  }

  /** The toast of `onError`. */
  function ErrorToast(e: HookError): (n: Notice)
    ensures n.Toast? && n.title == "Error" && n.variant == "destructive" && n.description.Some?
    ensures e.NewError? ==> n.description == Some(ErrorFallback)
    ensures ResponseMessage(e).Some? && ResponseMessage(e).value != "" ==> n.description == ResponseMessage(e)
  {
    Toast("Error", Some(OrElse(ResponseMessage(e), ErrorFallback)), "destructive")
  }

  /** One `mutate` call, for what `instance.post` settled to, the
      `refetchQueries` option and the caller's `mutationOptions`. */
  function PostMutation(settled: Settled, refetchQueries: Option<seq<string>>, mutationOptions: map<string, string>): Effects
  {
    if !RunsOwn(mutationOptions, MutationFn) then Effects(None, [], [])
    else
      var shown := if settled.Resolved? then [ResponseToast(settled.value)] else [];
      var o := PostOutcome(settled);
      Effects(Some(o), shown + SettledNotices(o, mutationOptions), SettledCalls(o, refetchQueries, mutationOptions))
  }

  /** The toast `onError` adds, unless the outcome is a success or the
      caller replaced `onError`. */
  function SettledNotices(o: Outcome, mutationOptions: map<string, string>): seq<Notice>
  {
    if o.Thrown? && RunsOwn(mutationOptions, OnError) then [ErrorToast(o.error)] else []
  }

  /** The refetches `onSuccess` asks for, unless the outcome is an error or
      the caller replaced `onSuccess`. */
  function SettledCalls(o: Outcome, refetchQueries: Option<seq<string>>, mutationOptions: map<string, string>): seq<CacheCall>
  {
    if o.Returned? && RunsOwn(mutationOptions, OnSuccess) && refetchQueries.Some? then CallsFor(RefetchOp, refetchQueries.value) else []
  }

  /** The mutation function: posts, shows the toast for what it received,
      then returns the data or throws. */
  method MutationFnPost(instance: Instance, feedback: Feedback, url: string, variables: Payload,
                        headers: Option<map<string, string>>, server: Config -> Reply, tokenKey: string)
    returns (o: Outcome)
    modifies instance.browser, feedback
    ensures var settled := Dispatch(instance.token, WithMethod(BodyRequest(url, variables, headers), POST), server);
      && o == PostOutcome(settled)
      && feedback.shown == old(feedback.shown) + (if settled.Resolved? then [ResponseToast(settled.value)] else [])
    ensures (instance.browser.localStorage, instance.browser.cookies) == BrowserAfter(Dispatch(instance.token, WithMethod(BodyRequest(url, variables, headers), POST), server), old(instance.browser.localStorage), old(instance.browser.cookies))
  {
    var settled := instance.Post(BodyRequest(url, variables, headers), server, tokenKey);
    match settled {
      case Rejected(reason) =>
        o := Thrown(PassedOn(reason));
      case Resolved(response) =>
        if Accepted(response) {
          feedback.Show(Toast("Success", MessageOf(response), "default"));
          o := Returned(response.value.data);
        } else {
          feedback.Show(Toast("Error", MessageOf(response), "destructive"));
          o := Thrown(NewError(OrElse(MessageOf(response), PostFallback), None));
        }
    }
  }

  /** `mutate(variables)` on the hook's mutation. */
  method Mutate(instance: Instance, client: QueryClient, feedback: Feedback,
                url: string, variables: Payload, headers: Option<map<string, string>>,
                refetchQueries: Option<seq<string>>, mutationOptions: map<string, string>,
                server: Config -> Reply, tokenKey: string)
    returns (o: Option<Outcome>)
    modifies instance.browser, client, feedback
    ensures var e := PostMutation(Dispatch(instance.token, WithMethod(BodyRequest(url, variables, headers), POST), server), refetchQueries, mutationOptions);
      o == e.outcome && feedback.shown == old(feedback.shown) + e.notices && client.calls == old(client.calls) + e.calls
    ensures RunsOwn(mutationOptions, MutationFn) ==>
      (instance.browser.localStorage, instance.browser.cookies) == BrowserAfter(Dispatch(instance.token, WithMethod(BodyRequest(url, variables, headers), POST), server), old(instance.browser.localStorage), old(instance.browser.cookies))
    ensures !RunsOwn(mutationOptions, MutationFn) ==> unchanged(instance.browser)
  {
    if !RunsOwn(mutationOptions, MutationFn) {
      return None;
    }
    var outcome := MutationFnPost(instance, feedback, url, variables, headers, server, tokenKey);
    Settle(outcome, client, feedback, refetchQueries, mutationOptions);
    o := Some(outcome);
  }

  /** The hook's `onSuccess` or `onError`, whichever the outcome calls for
      and the caller has not replaced. */
  method Settle(outcome: Outcome, client: QueryClient, feedback: Feedback,
                refetchQueries: Option<seq<string>>, mutationOptions: map<string, string>)
    modifies client, feedback
    ensures feedback.shown == old(feedback.shown) + SettledNotices(outcome, mutationOptions)
    ensures client.calls == old(client.calls) + SettledCalls(outcome, refetchQueries, mutationOptions)
  {
    if outcome.Returned? {
      if RunsOwn(mutationOptions, OnSuccess) && refetchQueries.Some? {
        client.ForEach(RefetchOp, refetchQueries.value);
      }
    } else if RunsOwn(mutationOptions, OnError) {
      feedback.Show(ErrorToast(outcome.error));
    }
  }

  // ---------------------------------------------------------------------
  // What a user sees.

  /** A success: one "Success" toast with the server's message, and each
      listed query refetched once, in order. */
  lemma SuccessToastAndRefetch(v: Option<Envelope>, refetchQueries: seq<string>)
    requires Accepted(v)
    ensures var e := PostMutation(Resolved(v), Some(refetchQueries), map[]);
      && e.outcome == Some(Returned(v.value.data))
      && e.notices == [Toast("Success", v.value.message, "default")]
      && |e.calls| == |refetchQueries|
      && forall i :: 0 <= i < |refetchQueries| ==> e.calls[i] == CacheCall(RefetchOp, [refetchQueries[i]])
  {
    RunsOwnIff(map[], MutationFn);
    RunsOwnIff(map[], OnSuccess);
  }

  /** A resolved value that is not a success shows two error toasts: the
      response's own message, then the generic one, since the thrown
      `Error` has no `response`. */
  lemma FailureToastsTwice(v: Option<Envelope>, refetchQueries: Option<seq<string>>)
    requires !Accepted(v)
    ensures PostMutation(Resolved(v), refetchQueries, map[]) ==
      Effects(Some(Thrown(NewError(OrElse(MessageOf(v), PostFallback), None))),
              [Toast("Error", MessageOf(v), "destructive"), Toast("Error", Some(ErrorFallback), "destructive")],
              [])
  {
    RunsOwnIff(map[], MutationFn);
    RunsOwnIff(map[], OnError);
  }

  /** A rejected request shows only the `onError` toast, carrying the
      server's message when the rejection has a body with one. */
  lemma RejectionToastsOnce(f: Failure, refetchQueries: Option<seq<string>>)
    ensures var e := PostMutation(Rejected(f), refetchQueries, map[]);
      && e.outcome == Some(Thrown(PassedOn(f)))
      && e.calls == []
      && e.notices == [Toast("Error", Some(OrElse(if f.HttpFailure? && f.body.Some? then f.body.value.message else None, ErrorFallback)), "destructive")]
  {
    RunsOwnIff(map[], MutationFn);
    RunsOwnIff(map[], OnError);
  }

  /** Through the client, the post succeeds exactly when the backend
      delivered a success envelope; a delivered envelope that is not a
      success loses its message: the user sees an "Error" toast with no
      description and the mutation throws the fallback text. */
  lemma ThroughClient(token: string, config: Config, server: Config -> Reply)
    ensures var o := PostOutcome(Dispatch(token, config, server));
      o.Returned? <==> exists e :: server(Sent(token, config)) == Delivered(Some(e)) && IsSuccess(e)
    ensures forall e :: server(Sent(token, config)) == Delivered(Some(e)) && !IsSuccess(e) ==>
      && Dispatch(token, config, server) == Resolved(None)
      && ResponseToast(None) == Toast("Error", None, "destructive")
      && PostOutcome(Dispatch(token, config, server)) == Thrown(NewError(PostFallback, None))
  {
    DispatchShape(token, config, server);
    var r := Dispatch(token, config, server);
    if PostOutcome(r).Returned? {
      assert server(Sent(token, config)) == Delivered(r.value);
    }
  }
}
