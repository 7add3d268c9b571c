/** `usePatchData` (src/hooks/usePatchData.ts): a mutation that PATCHes
    the variables, returns `data` on status 200 and otherwise throws one
    `Error`, tagged in place with `Object.assign` on a 400 or a 401; on
    success it invalidates the listed queries, on error it shows a sonner
    error toast. */
module PatchHook {
  import opened Text
  import opened HttpClient
  import opened HookKit

  const PatchFallback: string := "Failed to update data"

  /** The rest of the mutation function, for what `instance.patch`
      settled to: one `Error` built from the message, then tagged in place
      according to the status. */
  method HandleResponse(settled: Settled) returns (o: Outcome)
    ensures o == StatusOutcome(settled, PatchFallback)
  {
    if settled.Rejected? {
      return Thrown(PassedOn(settled.reason));
    }
    var response := settled.value;
    if StatusOf(response) == Some(200) {
      return Returned(response.value.data);
    }
    var error := new ErrorObject(OrElse(MessageOf(response), PatchFallback));
    if StatusOf(response) == Some(400) {
      error.Assign(400, None);
    } else if StatusOf(response) == Some(401) {
      error.Assign(401, Some("Unauthorized"));
    }
    o := Thrown(NewError(error.message, error.statusCode));
  }

  /** The mutation function: `instance.patch`, then `HandleResponse`. */
  method MutationFnPatch(instance: Instance, url: string, variables: Payload, headers: Option<map<string, string>>,
                         server: Config -> Reply, tokenKey: string)
    returns (o: Outcome)
    modifies instance.browser
    ensures o == StatusOutcome(Dispatch(instance.token, WithMethod(BodyRequest(url, variables, headers), PATCH), server), PatchFallback)
    ensures (instance.browser.localStorage, instance.browser.cookies) == BrowserAfter(Dispatch(instance.token, WithMethod(BodyRequest(url, variables, headers), PATCH), server), old(instance.browser.localStorage), old(instance.browser.cookies))
  {
    var settled := instance.Patch(BodyRequest(url, variables, headers), server, tokenKey);
    o := HandleResponse(settled);
  }

  /** `toast.error(error.message || 'Failed to update data')` */
  function PatchErrorNotice(e: HookError): (n: Notice)
    ensures n.ToastError? && n.text != ""
    ensures ErrorMessage(e) != "" ==> n.text == ErrorMessage(e)
  {
    ToastError(OrElse(Some(ErrorMessage(e)), PatchFallback))
  }

  function PatchMutation(settled: Settled, refetchQueries: Option<seq<string>>, mutationOptions: map<string, string>): Effects
  {
    InvalidatingMutation(StatusOutcome(settled, PatchFallback), refetchQueries, mutationOptions, PatchErrorNotice)
  }

  /** `mutate(variables)` on the hook's mutation; an absent
      `refetchQueries` is the empty list. */
  method Mutate(instance: Instance, client: QueryClient, feedback: Feedback,
                url: string, variables: Payload, headers: Option<map<string, string>>,
                refetchQueries: Option<seq<string>>, mutationOptions: map<string, string>,
                server: Config -> Reply, tokenKey: string)
    returns (o: Option<Outcome>)
    modifies instance.browser, client, feedback
    ensures var e := PatchMutation(Dispatch(instance.token, WithMethod(BodyRequest(url, variables, headers), PATCH), server), refetchQueries, mutationOptions);
      o == e.outcome && feedback.shown == old(feedback.shown) + e.notices && client.calls == old(client.calls) + e.calls
    ensures RunsOwn(mutationOptions, MutationFn) ==>
      (instance.browser.localStorage, instance.browser.cookies) == BrowserAfter(Dispatch(instance.token, WithMethod(BodyRequest(url, variables, headers), PATCH), server), old(instance.browser.localStorage), old(instance.browser.cookies))
    ensures !RunsOwn(mutationOptions, MutationFn) ==> unchanged(instance.browser)
  {
    if !RunsOwn(mutationOptions, MutationFn) {
      return None;
    }
    var outcome := MutationFnPatch(instance, url, variables, headers, server, tokenKey);
    InvalidatingCallbacks(outcome, client, feedback, refetchQueries, mutationOptions, PatchErrorNotice);
    o := Some(outcome);
  }

  /** A 401 envelope reaching the hook becomes an error reading
      "Unauthorized", and that is what the toast shows. */
  lemma UnauthorizedToast(v: Option<Envelope>, refetchQueries: Option<seq<string>>)
    requires StatusOf(v) == Some(401)
    ensures PatchMutation(Resolved(v), refetchQueries, map[]) ==
      Effects(Some(Thrown(NewError("Unauthorized", Some(401)))), [ToastError("Unauthorized")], [])
  {
    RunsOwnIff(map[], MutationFn);
    RunsOwnIff(map[], OnError);
  }

  /** A success invalidates each listed query once, in order, and shows
      nothing. */
  lemma SuccessInvalidates(v: Option<Envelope>, refetchQueries: seq<string>)
    requires StatusOf(v) == Some(200)
    ensures var e := PatchMutation(Resolved(v), Some(refetchQueries), map[]);
      && e.outcome == Some(Returned(v.value.data))
      && e.notices == []
      && |e.calls| == |refetchQueries|
      && forall i :: 0 <= i < |refetchQueries| ==> e.calls[i] == CacheCall(InvalidateOp, [refetchQueries[i]])
  {
    RunsOwnIff(map[], MutationFn);
    RunsOwnIff(map[], OnSuccess);
  }

  /** A caller's own `onError` replaces the toast, and a caller's own
      `onSuccess` the invalidation. */
  lemma CallerHandlersReplace(settled: Settled, refetchQueries: Option<seq<string>>, onSuccess: string, onError: string)
    ensures PatchMutation(settled, refetchQueries, map[OnSuccess := onSuccess, OnError := onError]) ==
      Effects(Some(StatusOutcome(settled, PatchFallback)), [], [])
  {
    var opts := map[OnSuccess := onSuccess, OnError := onError];
    RunsOwnIff(opts, MutationFn);
    RunsOwnIff(opts, OnSuccess);
    RunsOwnIff(opts, OnError);
  }
}
