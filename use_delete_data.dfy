/** `useDeleteData` (src/hooks/useDeleteData.ts): a mutation that DELETEs
    the URL, returns `data` on status 200 and otherwise throws a fresh
    `Error`, tagged on a 400 or a 401; on success it invalidates the listed
    queries, on error it writes the message to the console. */
module DeleteHook {
  import opened Text
  import opened HttpClient
  import opened HookKit

  const DeleteFallback: string := "Failed to delete data"

  /** `{ url }`: no body and no headers of its own. */
  function DeleteRequest(url: string): (c: Config)
    ensures c.url == url && c.data == Falsy && c.headers == map[] && !c.basicAuth && c.verb == None
  {
    Config(None, url, Falsy, map[], false)
  }

  /** The rest of the mutation function, for what `instance.delete`
      settled to: a fresh `Error` in each failing branch. */
  method HandleResponse(settled: Settled) returns (o: Outcome)
    ensures o == StatusOutcome(settled, DeleteFallback)
  {
    if settled.Rejected? {
      return Thrown(PassedOn(settled.reason));
    }
    var response := settled.value;
    if StatusOf(response) == Some(200) {
      return Returned(response.value.data);
    }
    var errorMessage := OrElse(MessageOf(response), DeleteFallback);
    if StatusOf(response) == Some(400) {
      var error := new ErrorObject(errorMessage);
      error.Assign(400, None);
      return Thrown(NewError(error.message, error.statusCode));
    }
    if StatusOf(response) == Some(401) {
      var error := new ErrorObject("Unauthorized");
      error.Assign(401, None);
      return Thrown(NewError(error.message, error.statusCode));
    }
    var error := new ErrorObject(errorMessage);
    o := Thrown(NewError(error.message, error.statusCode));
  }

  /** The mutation function: `instance.delete`, then `HandleResponse`. */
  method MutationFnDelete(instance: Instance, url: string, server: Config -> Reply, tokenKey: string)
    returns (o: Outcome)
    modifies instance.browser
    ensures o == StatusOutcome(Dispatch(instance.token, WithMethod(DeleteRequest(url), DELETE), server), DeleteFallback)
    ensures (instance.browser.localStorage, instance.browser.cookies) == BrowserAfter(Dispatch(instance.token, WithMethod(DeleteRequest(url), DELETE), server), old(instance.browser.localStorage), old(instance.browser.cookies))
  {
    var settled := instance.Delete(DeleteRequest(url), server, tokenKey);
    o := HandleResponse(settled);
  }

  /** `console.error(error.message || 'Failed to delete data')` */
  function DeleteErrorNotice(e: HookError): (n: Notice)
    ensures n.ConsoleError? && n.text != ""
    ensures ErrorMessage(e) != "" ==> n.text == ErrorMessage(e)
  {
    ConsoleError(OrElse(Some(ErrorMessage(e)), DeleteFallback))
  }

  function DeleteMutation(settled: Settled, refetchQueries: Option<seq<string>>, mutationOptions: map<string, string>): Effects
  {
    InvalidatingMutation(StatusOutcome(settled, DeleteFallback), refetchQueries, mutationOptions, DeleteErrorNotice)
  }

  /** `mutate()` on the hook's mutation; an absent `refetchQueries` is the
      empty list. */
  method Mutate(instance: Instance, client: QueryClient, feedback: Feedback, url: string,
                refetchQueries: Option<seq<string>>, mutationOptions: map<string, string>,
                server: Config -> Reply, tokenKey: string)
    returns (o: Option<Outcome>)
    modifies instance.browser, client, feedback
    ensures var e := DeleteMutation(Dispatch(instance.token, WithMethod(DeleteRequest(url), DELETE), server), refetchQueries, mutationOptions);
      o == e.outcome && feedback.shown == old(feedback.shown) + e.notices && client.calls == old(client.calls) + e.calls
    ensures RunsOwn(mutationOptions, MutationFn) ==>
      (instance.browser.localStorage, instance.browser.cookies) == BrowserAfter(Dispatch(instance.token, WithMethod(DeleteRequest(url), DELETE), server), old(instance.browser.localStorage), old(instance.browser.cookies))
    ensures !RunsOwn(mutationOptions, MutationFn) ==> unchanged(instance.browser)
  {
    if !RunsOwn(mutationOptions, MutationFn) {
      return None;
    }
    var outcome := MutationFnDelete(instance, url, server, tokenKey);
    InvalidatingCallbacks(outcome, client, feedback, refetchQueries, mutationOptions, DeleteErrorNotice);
    o := Some(outcome);
  }

  /** A failure never toasts: it writes one console line, the server's
      message or the fallback, and touches no query. */
  lemma FailureLogsOnce(v: Option<Envelope>, refetchQueries: Option<seq<string>>)
    requires StatusOf(v) != Some(200) && StatusOf(v) != Some(401)
    ensures DeleteMutation(Resolved(v), refetchQueries, map[]) ==
      Effects(Some(Thrown(NewError(OrElse(MessageOf(v), DeleteFallback), if StatusOf(v) == Some(400) then Some(400) else None))),
              [ConsoleError(OrElse(MessageOf(v), DeleteFallback))], [])
  {
    RunsOwnIff(map[], MutationFn);
    RunsOwnIff(map[], OnError);
  }

  /** A success invalidates each listed query once, in order. */
  lemma SuccessInvalidates(v: Option<Envelope>, refetchQueries: seq<string>)
    requires StatusOf(v) == Some(200)
    ensures var e := DeleteMutation(Resolved(v), Some(refetchQueries), map[]);
      && e.outcome == Some(Returned(v.value.data))
      && e.notices == []
      && |e.calls| == |refetchQueries|
      && forall i :: 0 <= i < |refetchQueries| ==> e.calls[i] == CacheCall(InvalidateOp, [refetchQueries[i]])
  {
    RunsOwnIff(map[], MutationFn);
    RunsOwnIff(map[], OnSuccess);
  }
}
