/** What HandleAuthenticateAsync, HandleChallengeAsync and
    HandleForbiddenAsync promise, stated over the specification functions
    of the Handler module. */
module HandlerProperties {
  import opened Common
  import opened Claims
  import opened Keys
  import opened ResultContexts
  import opened ValidateKeyContexts
  import opened SucceededContexts
  import opened ResponseContexts
  import opened Events
  import opened Options
  import opened Extractors
  import opened Handler

  // ---------------------------------------------------------------------
  // Before any hook runs.

  /** On an anonymous endpoint with IgnoreAuthenticationIfAllowAnonymous set
      the answer is NoResult whatever the request holds: parsing, the hooks
      and the provider play no part. */
  lemma AnonymousEndpointIsNotAuthenticated(env: HandlerEnv, req: Request, parsed: Outcome<NString>,
                                            events: Option<ApiKeyEvents>, providerType: Option<ProviderType>)
    requires env.options.ignoreAuthenticationIfAllowAnonymous && req.endpointAllowsAnonymous
    ensures Authenticate(env, req, parsed) == Ok(NoResult)
    ensures Authenticate(env.(options := env.options.(events := events, apiKeyProviderType := providerType)),
                         req, parsed) == Ok(NoResult)
  {
  }

  /** A blank key is never a failure: it is NoResult, so the framework
      answers 401 without asking a hook or the provider. */
  lemma BlankKeyIsNoResult(env: HandlerEnv, req: Request, apiKey: NString)
    requires IsNullOrWhiteSpace(apiKey)
    ensures Authenticate(env, req, Ok(apiKey)) == Ok(NoResult)
    ensures Authenticate(env, req, Ok(apiKey)) != Ok(FailMessage(InvalidKeyMessage))
  {
  }

  /** A header that is sent with an empty value gives a blank key, hence NoResult. */
  lemma EmptyHeaderIsNoResult(env: HandlerEnv, req: Request, parse: AuthorizationParser)
    requires PostConfigure(env.options).None? && env.strategy == InHeader && !req.endpointAllowsAnonymous
    requires env.options.keyName.value in req.headers && req.headers[env.options.keyName.value] == [""]
    ensures AuthenticateRequest(env, req, parse) == Ok(NoResult)
  {
    assert IsNullOrWhiteSpace(Some(""));
  }

  /** A key sent where the handler does not look is not seen: a key sent
      only as a query parameter to the header handler, or only as a header
      to the query handler, gives NoResult. */
  lemma KeyInWrongPlaceIsNoResult(env: HandlerEnv, req: Request, parse: AuthorizationParser)
    requires PostConfigure(env.options).None? && !req.endpointAllowsAnonymous
    requires (env.strategy == InHeader && env.options.keyName.value !in req.headers) ||
             (env.strategy == InQueryParams && env.options.keyName.value !in req.query)
    ensures AuthenticateRequest(env, req, parse) == Ok(NoResult)
  {
    assert IsNullOrWhiteSpace(Some(""));
  }

  // ---------------------------------------------------------------------
  // OnValidateKey.

  /** When OnValidateKey leaves a result, that result is the answer, and the
      provider registered, if any, makes no difference. */
  lemma ValidateKeyResultWins(env: HandlerEnv, req: Request, apiKey: string, r: AuthResult,
                              providerType: Option<ProviderType>)
    requires !IgnoreAuthenticationIfAllowAnonymous(env, req) && !IsNullOrWhiteSpace(Some(apiKey))
    requires ValidateKeyStep(env, apiKey) == Ok(Some(r))
    ensures Authenticate(env, req, Ok(Some(apiKey))) == Ok(r)
    ensures Authenticate(env.(options := env.options.(apiKeyProviderType := providerType)), req, Ok(Some(apiKey))) == Ok(r)
  {
    var env2 := env.(options := env.options.(apiKeyProviderType := providerType));
    assert HandlerEvents(env2) == HandlerEvents(env);
    assert ValidateKeyStep(env2, apiKey) == ValidateKeyStep(env, apiKey);
  }

  /** ValidationSucceeded(owner, claims) in OnValidateKey authenticates the
      request with a principal built from the owner, the scheme name and
      Options.ClaimsIssuer. */
  lemma HookValidationSucceeded(env: HandlerEnv, req: Request, apiKey: string,
                                hook: string -> seq<ValidateKeyCall>, owner: NString, claims: Option<seq<Claim>>)
    requires !IgnoreAuthenticationIfAllowAnonymous(env, req) && !IsNullOrWhiteSpace(Some(apiKey))
    requires !IsNullOrWhiteSpace(Some(env.schemeName))
    requires HandlerEvents(env).onValidateKey == Some(hook) && hook(apiKey) == [ValidationSucceeded(owner, claims)]
    ensures var r := Authenticate(env, req, Ok(Some(apiKey)));
      r.Ok? && r.value.Success? && IsAuthenticated(Some(r.value.principal)) &&
      AllClaims(r.value.principal.identities) == DefaultedClaims(owner, env.options.claimsIssuer, Supplied(claims))
  {
    var calls := [ValidationSucceeded(owner, claims)];
    var first := ValidationSucceededOn(env.schemeName, env.options.claimsIssuer, owner, claims);
    assert first.Ok?;
    assert calls[1..] == [];
    assert RunValidateKeyCalls(env.schemeName, env.options.claimsIssuer, ResultState(None, None), calls) == first;
    assert ValidateKeyStep(env, apiKey) == Ok(first.value.result);
  }

  /** Whatever OnValidateKey does, its context decides the step: an
      exception escapes, a result is the answer, and without a result an
      authenticated principal succeeds while any other lets the provider
      be asked. */
  lemma HookPrincipalWithoutResult(env: HandlerEnv, apiKey: string)
    ensures var run := RunValidateKeyCalls(env.schemeName, env.options.claimsIssuer, ResultState(None, None),
                                           ValidateKeyAsync(HandlerEvents(env), apiKey));
      (run.Throw? ==> ValidateKeyStep(env, apiKey) == Throw(run.exception)) &&
      (run.Ok? && run.value.result.Some? ==> ValidateKeyStep(env, apiKey) == Ok(run.value.result)) &&
      (run.Ok? && run.value.result.None? && IsAuthenticated(run.value.principal) ==>
         ValidateKeyStep(env, apiKey) == Ok(Some(Success(run.value.principal.value)))) &&
      (run.Ok? && run.value.result.None? && !IsAuthenticated(run.value.principal) ==>
         ValidateKeyStep(env, apiKey) == Ok(None))
  {
  }

  /** The single call Principal = p in OnValidateKey: Success when p is
      authenticated; otherwise the provider is asked. */
  lemma HookSetPrincipal(env: HandlerEnv, apiKey: string, hook: string -> seq<ValidateKeyCall>, p: Principal)
    requires HandlerEvents(env).onValidateKey == Some(hook) && hook(apiKey) == [ValidateBase(SetPrincipal(Some(p)))]
    ensures IsAuthenticated(Some(p)) ==> ValidateKeyStep(env, apiKey) == Ok(Some(Success(p)))
    ensures !IsAuthenticated(Some(p)) ==> ValidateKeyStep(env, apiKey) == Ok(None)
  {
    var calls := hook(apiKey);
    assert calls[1..] == [];
    assert RunValidateKeyCalls(env.schemeName, env.options.claimsIssuer, ResultState(None, None), calls)
        == Ok(ResultState(Some(p), None));
  }

  /** ValidationFailed(message) in OnValidateKey: Fail(message), or NoResult
      for a blank message; either way the provider is not asked. */
  lemma HookValidationFailed(env: HandlerEnv, req: Request, apiKey: string,
                             hook: string -> seq<ValidateKeyCall>, message: NString)
    requires !IgnoreAuthenticationIfAllowAnonymous(env, req) && !IsNullOrWhiteSpace(Some(apiKey))
    requires HandlerEvents(env).onValidateKey == Some(hook) && hook(apiKey) == [ValidationFailed(message)]
    ensures IsNullOrWhiteSpace(message) ==> Authenticate(env, req, Ok(Some(apiKey))) == Ok(NoResult)
    ensures !IsNullOrWhiteSpace(message) ==> Authenticate(env, req, Ok(Some(apiKey))) == Ok(FailMessage(message.value))
  {
    var calls := hook(apiKey);
    assert calls[1..] == [];
    var st := ValidationFailedOn(ResultState(None, None), message);
    assert RunValidateKeyCalls(env.schemeName, env.options.claimsIssuer, ResultState(None, None), calls) == Ok(st);
  }

  // ---------------------------------------------------------------------
  // The key provider.

  /** Without a result from OnValidateKey, a missing key or one that differs
      from the parsed key fails with the invalid-key message. */
  lemma RejectedKeyFails(env: HandlerEnv, req: Request, apiKey: string, validated: Option<ApiKey>)
    requires !IgnoreAuthenticationIfAllowAnonymous(env, req) && !IsNullOrWhiteSpace(Some(apiKey))
    requires ValidateKeyStep(env, apiKey) == Ok(None)
    requires ValidateUsingApiKeyProvider(env.options, apiKey) == Ok(validated)
    requires validated.None? ||
             (!env.options.forLegacyIgnoreExtraValidatedApiKeyCheck && !EqualsIgnoreCase(validated.value.key, Some(apiKey)))
    ensures Authenticate(env, req, Ok(Some(apiKey))) == Ok(FailMessage(InvalidKeyMessage))
  {
  }

  /** The key check ignores case, accepts nothing for a missing key, and is
      switched off by the legacy flag. */
  lemma KeyCheck(options: ApiKeyOptions, key: ApiKey, apiKey: string)
    ensures KeyRejected(options, None, apiKey)
    ensures key.key == Some(apiKey) ==> !KeyRejected(options, Some(key), apiKey)
    ensures key.key.Some? && |key.key.value| != |apiKey| ==>
      (KeyRejected(options, Some(key), apiKey) <==> !options.forLegacyIgnoreExtraValidatedApiKeyCheck)
    ensures key.key.None? ==> (KeyRejected(options, Some(key), apiKey) <==> !options.forLegacyIgnoreExtraValidatedApiKeyCheck)
  {
    if key.key.Some? && |key.key.value| != |apiKey| {
      DifferentLengthsDiffer(key.key.value, apiKey);
    }
  }

  /** "KEY" and "key" are the same key to the handler. */
  lemma KeyCheckIgnoresCase(options: ApiKeyOptions, key: ApiKey)
    requires key.key == Some("KEY")
    ensures !KeyRejected(options, Some(key), "key")
  {
    assert Fold("KEY") == Fold("key");
  }

  /** Without a provider type the handler throws InvalidOperationException,
      which goes to OnAuthenticationFailed like any other exception; with
      no such hook it escapes. */
  lemma MissingProviderIsRoutedToFailedHook(env: HandlerEnv, req: Request, apiKey: string)
    requires !IgnoreAuthenticationIfAllowAnonymous(env, req) && !IsNullOrWhiteSpace(Some(apiKey))
    requires ValidateKeyStep(env, apiKey) == Ok(None) && env.options.apiKeyProviderType.None?
    ensures Authenticate(env, req, Ok(Some(apiKey))) == FailedStep(env, Exception(InvalidOperation, ResolverMessage))
    ensures HandlerEvents(env).onAuthenticationFailed.None? ==>
      Authenticate(env, req, Ok(Some(apiKey))) == Throw(Exception(InvalidOperation, ResolverMessage))
  {
  }

  /** The default pipeline: no hooks, and a provider that returns the key
      that was sent, authenticates the request with a principal named after
      the key's owner; the added claims carry the handler's ClaimsIssuer. */
  lemma ProviderKeyAuthenticates(env: HandlerEnv, req: Request, apiKey: string, provider: Provider, key: ApiKey)
    requires !IgnoreAuthenticationIfAllowAnonymous(env, req) && !IsNullOrWhiteSpace(Some(apiKey))
    requires !IsNullOrWhiteSpace(Some(env.schemeName))
    requires HandlerEvents(env).onValidateKey.None? && HandlerEvents(env).onAuthenticationSucceeded.None?
    requires env.options.apiKeyProviderType.Some? && env.options.apiKeyProviderType.value.instance == Some(provider)
    requires provider(apiKey) == Ok(Some(key)) && key.key == Some(apiKey)
    ensures var r := Authenticate(env, req, Ok(Some(apiKey)));
      r.Ok? && r.value.Success? && IsAuthenticated(Some(r.value.principal)) &&
      AllClaims(r.value.principal.identities) ==
        DefaultedClaims(key.ownerName, Some(HandlerClaimsIssuer(env)), Supplied(key.claims))
  {
    SameIgnoreCaseIsEquivalence(apiKey, apiKey, apiKey);
    assert !KeyRejected(env.options, Some(key), apiKey);
    BuiltPrincipalIsAuthenticated(key.ownerName, Some(env.schemeName), Some(HandlerClaimsIssuer(env)), key.claims);
  }

  // ---------------------------------------------------------------------
  // OnAuthenticationSucceeded.

  /** A hook that uses only ReplacePrincipal, RejectPrincipal, AddClaim and
      AddClaims, and does not throw, ends in Success for the principal it
      leaves, or, when that is not authenticated, in the no-principal
      failure. */
  lemma SucceededHookWithoutResult(env: HandlerEnv, key: ApiKey, hook: Option<Principal> -> seq<SucceededCall>, p: Principal)
    requires HandlerEvents(env).onAuthenticationSucceeded == Some(hook)
    requires ClaimsPrincipalOf(key.ownerName, Some(env.schemeName), Some(HandlerClaimsIssuer(env)), key.claims) == Ok(p)
    requires forall i :: 0 <= i < |hook(Some(p))| ==> !hook(Some(p))[i].SucceededBase?
    requires RunSucceededCalls(ResultState(Some(p), None), hook(Some(p))).Ok?
    ensures var st := RunSucceededCalls(ResultState(Some(p), None), hook(Some(p))).value;
      (IsAuthenticated(st.principal) ==> SucceededStep(env, key) == Ok(Success(st.principal.value))) &&
      (!IsAuthenticated(st.principal) ==> SucceededStep(env, key) == Ok(FailMessage(NoPrincipalMessage)))
  {
    OwnMembersKeepResult(ResultState(Some(p), None), hook(Some(p)));
  }

  /** RejectPrincipal in OnAuthenticationSucceeded fails authentication. */
  lemma RejectedPrincipalFails(env: HandlerEnv, key: ApiKey, hook: Option<Principal> -> seq<SucceededCall>, p: Principal)
    requires HandlerEvents(env).onAuthenticationSucceeded == Some(hook)
    requires ClaimsPrincipalOf(key.ownerName, Some(env.schemeName), Some(HandlerClaimsIssuer(env)), key.claims) == Ok(p)
    requires hook(Some(p)) == [RejectPrincipal]
    ensures SucceededStep(env, key) == Ok(FailMessage(NoPrincipalMessage))
  {
    var calls := hook(Some(p));
    assert calls[1..] == [];
    assert RunSucceededCalls(ResultState(Some(p), None), calls) == Ok(ResultState(None, None));
  }

  /** Whatever OnAuthenticationSucceeded does, its context decides the
      step: an exception escapes, a result it set is the answer, and
      without one an authenticated principal succeeds and anything else
      fails with the no-principal message. */
  lemma SucceededHookResultWins(env: HandlerEnv, key: ApiKey, p: Principal)
    requires ClaimsPrincipalOf(key.ownerName, Some(env.schemeName), Some(HandlerClaimsIssuer(env)), key.claims) == Ok(p)
    ensures var run := RunSucceededCalls(ResultState(Some(p), None), AuthenticationSucceededAsync(HandlerEvents(env), Some(p)));
      (run.Throw? ==> SucceededStep(env, key) == Throw(run.exception)) &&
      (run.Ok? && run.value.result.Some? ==> SucceededStep(env, key) == Ok(run.value.result.value)) &&
      (run.Ok? && run.value.result.None? && IsAuthenticated(run.value.principal) ==>
         SucceededStep(env, key) == Ok(Success(run.value.principal.value))) &&
      (run.Ok? && run.value.result.None? && !IsAuthenticated(run.value.principal) ==>
         SucceededStep(env, key) == Ok(FailMessage(NoPrincipalMessage)))
  {
  }

  /** RejectPrincipal followed by Fail(message) in OnAuthenticationSucceeded
      ends in that failure, not the no-principal one. */
  lemma SucceededHookRejectThenFail(env: HandlerEnv, key: ApiKey, hook: Option<Principal> -> seq<SucceededCall>,
                                    p: Principal, message: string)
    requires HandlerEvents(env).onAuthenticationSucceeded == Some(hook)
    requires ClaimsPrincipalOf(key.ownerName, Some(env.schemeName), Some(HandlerClaimsIssuer(env)), key.claims) == Ok(p)
    requires hook(Some(p)) == [RejectPrincipal, SucceededBase(CallFail(message))]
    ensures SucceededStep(env, key) == Ok(FailMessage(message))
  {
    var calls := hook(Some(p));
    var s1 := ResultState(None, None);
    var s2 := ResultState(None, Some(FailMessage(message)));
    assert ApplySucceededCall(ResultState(Some(p), None), calls[0]) == Ok(s1);
    assert ApplySucceededCall(s1, calls[1]) == Ok(s2);
    assert calls[1..][1..] == [];
    assert RunSucceededCalls(s1, calls[1..]) == Ok(s2);
  }

  // ---------------------------------------------------------------------
  // OnAuthenticationFailed.

  /** Any exception raised after parsing goes to OnAuthenticationFailed. */
  lemma ExceptionsGoToFailedHook(env: HandlerEnv, req: Request, apiKey: string, e: Exception)
    requires !IgnoreAuthenticationIfAllowAnonymous(env, req) && !IsNullOrWhiteSpace(Some(apiKey))
    requires Guarded(env, apiKey) == Throw(e)
    ensures Authenticate(env, req, Ok(Some(apiKey))) == FailedStep(env, e)
  {
  }

  /** Calls that only assign Principal leave Result as it was. */
  lemma {:induction false} PrincipalOnlyCallsKeepResult(st: ResultState, calls: seq<ResultCall>)
    requires forall i :: 0 <= i < |calls| ==> calls[i].SetPrincipal?
    ensures RunResultCalls(st, calls).Ok? && RunResultCalls(st, calls).value.result == st.result
    decreases |calls|
  {
    if calls != [] {
      RunResultCallsStep(st, calls);
      PrincipalOnlyCallsKeepResult(st.(principal := calls[0].principal), calls[1..]);
    }
  }

  /** Whatever OnAuthenticationFailed does, its context decides the
      answer: an exception the hook raises escapes, a result it set is
      returned, and without one the original exception is rethrown. */
  lemma FailedHookOutcome(env: HandlerEnv, e: Exception)
    ensures var run := RunResultCalls(ResultState(None, None), AuthenticationFailedAsync(HandlerEvents(env), e));
      (run.Throw? ==> FailedStep(env, e) == Throw(run.exception)) &&
      (run.Ok? && run.value.result.Some? ==> FailedStep(env, e) == Ok(run.value.result.value)) &&
      (run.Ok? && run.value.result.None? ==> FailedStep(env, e) == Throw(e))
  {
  }

  /** An OnAuthenticationFailed hook that only assigns Principal lets the
      same exception escape; one that calls Fail(message) turns it into
      that failure. */
  lemma FailedHookScripts(env: HandlerEnv, e: Exception, hook: Exception -> seq<ResultCall>, message: string)
    requires HandlerEvents(env).onAuthenticationFailed == Some(hook)
    ensures (forall i :: 0 <= i < |hook(e)| ==> hook(e)[i].SetPrincipal?) ==> FailedStep(env, e) == Throw(e)
    ensures hook(e) == [CallFail(message)] ==> FailedStep(env, e) == Ok(FailMessage(message))
  {
    if forall i :: 0 <= i < |hook(e)| ==> hook(e)[i].SetPrincipal? {
      PrincipalOnlyCallsKeepResult(ResultState(None, None), hook(e));
    }
    if hook(e) == [CallFail(message)] {
      assert hook(e)[1..] == [];
      assert RunResultCalls(ResultState(None, None), hook(e)) == Ok(ResultState(None, Some(FailMessage(message))));
    }
  }

  // ---------------------------------------------------------------------
  // Challenge and forbid.

  /** The WWW-Authenticate value starts with the scheme token: KeyName under
      the legacy flag, the registered scheme name otherwise; the realm
      parameter follows. */
  lemma ChallengeStartsWithScheme(env: HandlerEnv)
    ensures var scheme := Str(WwwAuthenticateSchemeName(env));
      |ChallengeValue(env)| > |scheme| + 8 &&
      ChallengeValue(env)[..|scheme|] == scheme && ChallengeValue(env)[|scheme|..|scheme| + 8] == " realm=\""
    ensures env.options.forLegacyUseKeyNameAsSchemeNameOnWWWAuthenticateHeader ==>
      ChallengeValue(env)[..|Str(env.options.keyName)|] == Str(env.options.keyName)
    ensures !env.options.forLegacyUseKeyNameAsSchemeNameOnWWWAuthenticateHeader ==>
      ChallengeValue(env)[..|env.schemeName|] == env.schemeName
  {
    var scheme := Str(WwwAuthenticateSchemeName(env));
    var p1 := scheme + " realm=\"";
    var p2 := p1 + Str(env.options.realm);
    var p3 := p2 + "\", charset=\"UTF-8\", in=\"";
    var p4 := p3 + InParameter(env.strategy);
    var p5 := p4 + "\", key_name=\"";
    var p6 := p5 + Str(env.options.keyName);
    assert ChallengeValue(env) == p6 + "\"";
    var n := |p1|;
    PrefixOfConcat(p6, "\"", n);
    PrefixOfConcat(p5, Str(env.options.keyName), n);
    PrefixOfConcat(p4, "\", key_name=\"", n);
    PrefixOfConcat(p3, InParameter(env.strategy), n);
    PrefixOfConcat(p2, "\", charset=\"UTF-8\", in=\"", n);
    PrefixOfConcat(p1, Str(env.options.realm), n);
    assert ChallengeValue(env)[..n] == p1;
    assert ChallengeValue(env)[..|scheme|] == p1[..|scheme|] == scheme;
    assert ChallengeValue(env)[|scheme|..n] == p1[|scheme|..] == " realm=\"";
  }

  /** The WWW-Authenticate value begins with the scheme token, the quoted
      realm, the UTF-8 charset and the quoted `in` value, in that order. */
  lemma ChallengeParametersInOrder(env: HandlerEnv)
    ensures var head := Str(WwwAuthenticateSchemeName(env)) + " realm=\"" + Str(env.options.realm)
                        + "\", charset=\"UTF-8\", in=\"" + InParameter(env.strategy) + "\"";
      |ChallengeValue(env)| > |head| && ChallengeValue(env)[..|head|] == head
  {
    var p4 := Str(WwwAuthenticateSchemeName(env)) + " realm=\"" + Str(env.options.realm)
              + "\", charset=\"UTF-8\", in=\"" + InParameter(env.strategy);
    var head := p4 + "\"";
    var p5 := p4 + "\", key_name=\"";
    var p6 := p5 + Str(env.options.keyName);
    assert ChallengeValue(env) == p6 + "\"";
    PrefixOfConcat(p4, "\", key_name=\"", |p4|);
    assert p5[..|head|] == head;
    PrefixOfConcat(p5, Str(env.options.keyName), |head|);
    PrefixOfConcat(p6, "\"", |head|);
  }

  /** The WWW-Authenticate value ends with the key_name parameter, quoting
      KeyName. */
  lemma ChallengeEndsWithKeyName(env: HandlerEnv)
    ensures var tail := "\", key_name=\"" + Str(env.options.keyName) + "\"";
      |ChallengeValue(env)| >= |tail| && ChallengeValue(env)[|ChallengeValue(env)| - |tail|..] == tail
  {
    var head := Str(WwwAuthenticateSchemeName(env)) + " realm=\"" + Str(env.options.realm)
      + "\", charset=\"UTF-8\", in=\"" + InParameter(env.strategy);
    var tail := "\", key_name=\"" + Str(env.options.keyName) + "\"";
    assert ChallengeValue(env) == head + tail;
  }

  /** A prefix of the left operand is a prefix of the concatenation. */
  lemma PrefixOfConcat(a: string, b: string, k: nat)
    requires k <= |a|
    ensures |a + b| == |a| + |b| && (a + b)[..k] == a[..k]
  {
  }

  /** The header a header handler registered as "ApiKey" sends for realm
      "Sample Web API" and key name "X-API-KEY". */
  lemma SampleChallenge(env: HandlerEnv)
    requires env.schemeName == "ApiKey" && env.strategy == InHeader
    requires env.options.realm == Some("Sample Web API") && env.options.keyName == Some("X-API-KEY")
    requires !env.options.forLegacyUseKeyNameAsSchemeNameOnWWWAuthenticateHeader
    ensures ChallengeValue(env) ==
      "ApiKey realm=\"Sample Web API\", charset=\"UTF-8\", in=\"header\", key_name=\"X-API-KEY\""
  {
    assert Str(WwwAuthenticateSchemeName(env)) == "ApiKey";
    assert Str(env.options.realm) == "Sample Web API" && Str(env.options.keyName) == "X-API-KEY";
    assert InParameter(env.strategy) == "header";
    assert ChallengeValue(env) == "ApiKey" + " realm=\"" + "Sample Web API" + "\", charset=\"UTF-8\", in=\""
      + "header" + "\", key_name=\"" + "X-API-KEY" + "\"";
    // Joining the pieces one at a time.
    assert "ApiKey" + " realm=\"" == "ApiKey realm=\"";
    assert "ApiKey realm=\"" + "Sample Web API" == "ApiKey realm=\"Sample Web API";
    assert "ApiKey realm=\"Sample Web API" + "\", charset=\"UTF-8\", in=\""
        == "ApiKey realm=\"Sample Web API\", charset=\"UTF-8\", in=\"";
    assert "ApiKey realm=\"Sample Web API\", charset=\"UTF-8\", in=\"" + "header"
        == "ApiKey realm=\"Sample Web API\", charset=\"UTF-8\", in=\"header";
    assert "ApiKey realm=\"Sample Web API\", charset=\"UTF-8\", in=\"header" + "\", key_name=\""
        == "ApiKey realm=\"Sample Web API\", charset=\"UTF-8\", in=\"header\", key_name=\"";
    assert "ApiKey realm=\"Sample Web API\", charset=\"UTF-8\", in=\"header\", key_name=\"" + "X-API-KEY"
        == "ApiKey realm=\"Sample Web API\", charset=\"UTF-8\", in=\"header\", key_name=\"X-API-KEY";
    assert "ApiKey realm=\"Sample Web API\", charset=\"UTF-8\", in=\"header\", key_name=\"X-API-KEY" + "\""
        == "ApiKey realm=\"Sample Web API\", charset=\"UTF-8\", in=\"header\", key_name=\"X-API-KEY\"";
  }

  /** An unhandled challenge answers 401 and, unless suppressed, carries the
      challenge header; a suppressed one leaves the headers as the hook
      left them. */
  lemma UnhandledChallenge(env: HandlerEnv, response: ResponseState)
    requires !HandleChallengeAsync(HandlerEvents(env), response).callsHandled
    ensures var reply := HandleChallengeAsync(HandlerEvents(env), response);
      var r := ChallengeOutcome(env, response);
      r.statusCode == 401 &&
      (!env.options.suppressWWWAuthenticateHeader ==>
         WwwAuthenticateHeaderName in r.headers && r.headers[WwwAuthenticateHeaderName] == ChallengeValue(env) &&
         forall h :: h in reply.response.headers && h != WwwAuthenticateHeaderName ==>
           h in r.headers && r.headers[h] == reply.response.headers[h]) &&
      (env.options.suppressWWWAuthenticateHeader ==> r.headers == reply.response.headers)
  {
  }

  /** With no OnHandleChallenge hook, the response keeps its headers, gains
      the challenge header unless suppressed, and answers 401. */
  lemma DefaultChallenge(env: HandlerEnv, response: ResponseState)
    requires HandlerEvents(env).onHandleChallenge.None?
    ensures ChallengeOutcome(env, response) ==
      ResponseState(401, if env.options.suppressWWWAuthenticateHeader then response.headers
                         else response.headers[WwwAuthenticateHeaderName := ChallengeValue(env)])
  {
  }

  /** An unhandled forbid answers 403 and writes no header. */
  lemma UnhandledForbid(env: HandlerEnv, response: ResponseState)
    requires !HandleForbiddenAsync(HandlerEvents(env), response).callsHandled
    ensures ForbidOutcome(env, response) == HandleForbiddenAsync(HandlerEvents(env), response).response.(statusCode := 403)
    ensures HandlerEvents(env).onHandleForbidden.None? ==> ForbidOutcome(env, response) == response.(statusCode := 403)
  {
  }
}
