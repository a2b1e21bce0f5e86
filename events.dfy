/** ApiKeyEvents: five optional delegates and the dispatch methods that call
    a delegate when one is set and do nothing otherwise. A delegate is
    modelled by what it does with the context it is handed: the calls it
    makes on a result context, or the response it leaves behind. */
module Events {
  import opened Common
  import opened Claims
  import opened ResultContexts
  import opened ValidateKeyContexts
  import opened SucceededContexts
  import opened ResponseContexts

  datatype ApiKeyEvents = ApiKeyEvents(
    onValidateKey: Option<string -> seq<ValidateKeyCall>>,
    onAuthenticationSucceeded: Option<Option<Principal> -> seq<SucceededCall>>,
    onAuthenticationFailed: Option<Exception -> seq<ResultCall>>,
    onHandleChallenge: Option<ResponseState -> HookReply>,
    onHandleForbidden: Option<ResponseState -> HookReply>)

  /** `new ApiKeyEvents()`: every delegate null. */
  function NewEvents(): (r: ApiKeyEvents)
    ensures r.onValidateKey.None? && r.onAuthenticationSucceeded.None? && r.onAuthenticationFailed.None?
    ensures r.onHandleChallenge.None? && r.onHandleForbidden.None?
  {
    ApiKeyEvents(None, None, None, None, None)
  }

  /** ValidateKeyAsync: the calls made on the validate-key context holding
      the parsed key. */
  function ValidateKeyAsync(events: ApiKeyEvents, apiKey: string): (r: seq<ValidateKeyCall>)
    ensures events.onValidateKey.None? ==> r == []
    ensures events.onValidateKey.Some? ==> r == events.onValidateKey.value(apiKey)
  {
    if events.onValidateKey.None? then [] else events.onValidateKey.value(apiKey)
  }

  /** AuthenticationSucceededAsync: the calls made on the succeeded context. */
  function AuthenticationSucceededAsync(events: ApiKeyEvents, principal: Option<Principal>): (r: seq<SucceededCall>)
    ensures events.onAuthenticationSucceeded.None? ==> r == []
    ensures events.onAuthenticationSucceeded.Some? ==> r == events.onAuthenticationSucceeded.value(principal)
  {
    if events.onAuthenticationSucceeded.None? then [] else events.onAuthenticationSucceeded.value(principal)
  }

  /** AuthenticationFailedAsync: the calls made on the failed context. */
  function AuthenticationFailedAsync(events: ApiKeyEvents, exception: Exception): (r: seq<ResultCall>)
    ensures events.onAuthenticationFailed.None? ==> r == []
    ensures events.onAuthenticationFailed.Some? ==> r == events.onAuthenticationFailed.value(exception)
  {
    if events.onAuthenticationFailed.None? then [] else events.onAuthenticationFailed.value(exception)
  }

  /** HandleChallengeAsync: the response as the delegate leaves it and
      whether it called Handled(); without a delegate neither changes. */
  function HandleChallengeAsync(events: ApiKeyEvents, response: ResponseState): (r: HookReply)
    ensures events.onHandleChallenge.None? ==> r == HookReply(response, false)
    ensures events.onHandleChallenge.Some? ==> r == events.onHandleChallenge.value(response)
  {
    if events.onHandleChallenge.None? then HookReply(response, false) else events.onHandleChallenge.value(response)
  }

  /** HandleForbiddenAsync: as HandleChallengeAsync, for the forbid delegate. */
  function HandleForbiddenAsync(events: ApiKeyEvents, response: ResponseState): (r: HookReply)
    ensures events.onHandleForbidden.None? ==> r == HookReply(response, false)
    ensures events.onHandleForbidden.Some? ==> r == events.onHandleForbidden.value(response)
  {
    if events.onHandleForbidden.None? then HookReply(response, false) else events.onHandleForbidden.value(response)
  }

  /** A fresh ApiKeyEvents changes nothing: every dispatch leaves the
      context it is given exactly as it was, and no response is handled. */
  lemma NewEventsAreInert(apiKey: string, schemeName: string, claimsIssuer: NString, st: ResultState,
                          principal: Option<Principal>, exception: Exception, response: ResponseState)
    ensures RunValidateKeyCalls(schemeName, claimsIssuer, st, ValidateKeyAsync(NewEvents(), apiKey)) == Ok(st)
    ensures RunSucceededCalls(st, AuthenticationSucceededAsync(NewEvents(), principal)) == Ok(st)
    ensures RunResultCalls(st, AuthenticationFailedAsync(NewEvents(), exception)) == Ok(st)
    ensures HandleChallengeAsync(NewEvents(), response) == HookReply(response, false)
    ensures HandleForbiddenAsync(NewEvents(), response) == HookReply(response, false)
  {
  }

  /** Each dispatcher consults its own delegate and no other: two event
      objects that agree on that delegate dispatch identically. */
  lemma DispatchUsesOwnDelegate(e1: ApiKeyEvents, e2: ApiKeyEvents, apiKey: string, principal: Option<Principal>,
                                exception: Exception, response: ResponseState)
    ensures e1.onValidateKey == e2.onValidateKey ==> ValidateKeyAsync(e1, apiKey) == ValidateKeyAsync(e2, apiKey)
    ensures e1.onAuthenticationSucceeded == e2.onAuthenticationSucceeded ==>
      AuthenticationSucceededAsync(e1, principal) == AuthenticationSucceededAsync(e2, principal)
    ensures e1.onAuthenticationFailed == e2.onAuthenticationFailed ==>
      AuthenticationFailedAsync(e1, exception) == AuthenticationFailedAsync(e2, exception)
    ensures e1.onHandleChallenge == e2.onHandleChallenge ==>
      HandleChallengeAsync(e1, response) == HandleChallengeAsync(e2, response)
    ensures e1.onHandleForbidden == e2.onHandleForbidden ==>
      HandleForbiddenAsync(e1, response) == HandleForbiddenAsync(e2, response)
  {
  }
}
