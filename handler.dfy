/** ApiKeyHandlerBase: authenticates a request (anonymous short-circuit,
    parse, OnValidateKey, the key provider, OnAuthenticationSucceeded, and
    OnAuthenticationFailed for any exception on the way), and answers
    challenges (401 with a WWW-Authenticate header) and forbids (403).
    The pure functions below are the specification; the ApiKeyHandler
    class carries it out with the context objects and is proved equal to it. */
module Handler {
  import opened Common
  import opened Claims
  import opened Keys
  import opened ResultContexts
  import opened ValidateKeyContexts
  import opened SucceededContexts
  import opened FailedContexts
  import opened ResponseContexts
  import opened Events
  import opened Options
  import opened Extractors

  /** What a handler instance works with: its registered scheme name, its
      options, which extractor it is, the events object it resolved, and
      Environment.NewLine. */
  datatype HandlerEnv = HandlerEnv(
    schemeName: string,
    options: ApiKeyOptions,
    strategy: Strategy,
    /** The events object the service provider gives for Options.EventsType. */
    typedEvents: ApiKeyEvents,
    newLine: string)

  const InvalidKeyMessage := "Invalid API Key provided by IApiKeyProvider."
  const NoPrincipalMessage := "No authenticated prinicipal set."
  const ParseErrorMessage := "Error parsing api key."
  const WwwAuthenticateHeaderName := "WWW-Authenticate"

  /** The handler's Events: the EventsType instance when one is registered,
      else Options.Events, else what CreateEventsAsync makes, a fresh
      ApiKeyEvents. */
  function HandlerEvents(env: HandlerEnv): (r: ApiKeyEvents)
    ensures env.options.eventsType.None? && env.options.events.None? ==> r == NewEvents()
    ensures env.options.eventsType.None? && env.options.events.Some? ==> r == env.options.events.value
  {
    if env.options.eventsType.Some? then env.typedEvents
    else if env.options.events.Some? then env.options.events.value
    else NewEvents()
  }

  /** The handler's ClaimsIssuer: Options.ClaimsIssuer, or the scheme name. */
  function HandlerClaimsIssuer(env: HandlerEnv): (r: string)
    ensures env.options.claimsIssuer.None? ==> r == env.schemeName
  {
    if env.options.claimsIssuer.Some? then env.options.claimsIssuer.value else env.schemeName
  }

  /** IgnoreAuthenticationIfAllowAnonymous(). */
  predicate IgnoreAuthenticationIfAllowAnonymous(env: HandlerEnv, req: Request): (r: bool)
    ensures r ==> env.options.ignoreAuthenticationIfAllowAnonymous && req.endpointAllowsAnonymous
    ensures env.options.ignoreAuthenticationIfAllowAnonymous && req.endpointAllowsAnonymous ==> r
  {
    env.options.ignoreAuthenticationIfAllowAnonymous && req.endpointAllowsAnonymous
  }

  /** A result, or the exception that ended the computation. */
  function Finished<T>(value: T, error: Option<Exception>): Outcome<T> {
    if error.None? then Ok(value) else Throw(error.value)
  }

  // ---------------------------------------------------------------------
  // Specification of authentication.

  /** RaiseAndHandleEventValidateKeyAsync: the result the OnValidateKey
      context ends with; failing that, Success for an authenticated
      principal it was given; otherwise no result (`None`), so the provider
      is asked. */
  function ValidateKeyStep(env: HandlerEnv, apiKey: string): (r: Outcome<Option<AuthResult>>)
    ensures ValidateKeyAsync(HandlerEvents(env), apiKey) == [] ==> r == Ok(None)
  {
    var calls := ValidateKeyAsync(HandlerEvents(env), apiKey);
    match RunValidateKeyCalls(env.schemeName, env.options.claimsIssuer, ResultState(None, None), calls)
    case Throw(e) => Throw(e)
    case Ok(st) =>
      if st.result.Some? then Ok(st.result)
      else if IsAuthenticated(st.principal) then Ok(Some(Success(st.principal.value)))
      else Ok(None)
  }

  /** ValidateUsingApiKeyProviderAsync: without a provider type, or when the
      type is not an IApiKeyProvider, an InvalidOperationException;
      otherwise whatever the provider returns or throws. */
  function ValidateUsingApiKeyProvider(options: ApiKeyOptions, apiKey: string): (r: Outcome<Option<ApiKey>>)
    ensures options.apiKeyProviderType.None? ==> r == Throw(Exception(InvalidOperation, ResolverMessage))
    ensures options.apiKeyProviderType.Some? && options.apiKeyProviderType.value.instance.None? ==>
      r == Throw(Exception(InvalidOperation, ResolverMessage))
    ensures options.apiKeyProviderType.Some? && options.apiKeyProviderType.value.instance.Some? ==>
      r == options.apiKeyProviderType.value.instance.value(apiKey)
  {
    if options.apiKeyProviderType.None? || options.apiKeyProviderType.value.instance.None? then
      Throw(Exception(InvalidOperation, ResolverMessage))
    else options.apiKeyProviderType.value.instance.value(apiKey)
  }

  /** The provider's key is refused when there is none or, unless the legacy
      flag is set, when it differs from the parsed key other than by case. */
  predicate KeyRejected(options: ApiKeyOptions, validated: Option<ApiKey>, apiKey: string): (r: bool)
    ensures validated.None? ==> r
    ensures options.forLegacyIgnoreExtraValidatedApiKeyCheck ==> (r <==> validated.None?)
    ensures validated.Some? && validated.value.key == Some(apiKey) ==> !r
  {
    validated.None? ||
    (!options.forLegacyIgnoreExtraValidatedApiKeyCheck && !EqualsIgnoreCase(validated.value.key, Some(apiKey)))
  }

  /** RaiseAndHandleAuthenticationSucceededAsync: the principal is built
      from the key; the OnAuthenticationSucceeded context's result wins;
      otherwise an authenticated principal succeeds and anything else fails. */
  function SucceededStep(env: HandlerEnv, key: ApiKey): (r: Outcome<AuthResult>)
    ensures IsNullOrWhiteSpace(Some(env.schemeName)) ==> r == Throw(ArgumentNullException("schemeName"))
  {
    match ClaimsPrincipalOf(key.ownerName, Some(env.schemeName), Some(HandlerClaimsIssuer(env)), key.claims)
    case Throw(e) => Throw(e)
    case Ok(p) =>
      match RunSucceededCalls(ResultState(Some(p), None), AuthenticationSucceededAsync(HandlerEvents(env), Some(p)))
      case Throw(e) => Throw(e)
      case Ok(st) =>
        if st.result.Some? then Ok(st.result.value)
        else if IsAuthenticated(st.principal) then Ok(Success(st.principal.value))
        else Ok(FailMessage(NoPrincipalMessage))
  }

  /** The body of the try block of HandleAuthenticateAsync, for a parsed,
      non-blank key. */
  function Guarded(env: HandlerEnv, apiKey: string): (r: Outcome<AuthResult>)
    ensures ValidateKeyStep(env, apiKey).Throw? ==> r == Throw(ValidateKeyStep(env, apiKey).exception)
    ensures ValidateKeyStep(env, apiKey).Ok? && ValidateKeyStep(env, apiKey).value.Some? ==>
      r == Ok(ValidateKeyStep(env, apiKey).value.value)
    ensures ValidateKeyStep(env, apiKey) == Ok(None) && ValidateUsingApiKeyProvider(env.options, apiKey).Throw? ==>
      r == Throw(ValidateUsingApiKeyProvider(env.options, apiKey).exception)
    ensures ValidateKeyStep(env, apiKey) == Ok(None) && ValidateUsingApiKeyProvider(env.options, apiKey).Ok? ==>
      var validated := ValidateUsingApiKeyProvider(env.options, apiKey).value;
      r == if KeyRejected(env.options, validated, apiKey) then Ok(FailMessage(InvalidKeyMessage))
           else SucceededStep(env, validated.value)
  {
    match ValidateKeyStep(env, apiKey)
    case Throw(e) => Throw(e)
    case Ok(hookResult) =>
      if hookResult.Some? then Ok(hookResult.value)
      else
        match ValidateUsingApiKeyProvider(env.options, apiKey)
        case Throw(e) => Throw(e)
        case Ok(validated) =>
          if KeyRejected(env.options, validated, apiKey) then Ok(FailMessage(InvalidKeyMessage))
          else SucceededStep(env, validated.value)
  }

  /** The catch block: OnAuthenticationFailed sees the exception; the result
      it sets is returned, and without one the same exception is rethrown.
      An exception thrown by the hook itself escapes instead. */
  function FailedStep(env: HandlerEnv, e: Exception): (r: Outcome<AuthResult>)
    ensures HandlerEvents(env).onAuthenticationFailed.None? ==> r == Throw(e)
  {
    match RunResultCalls(ResultState(None, None), AuthenticationFailedAsync(HandlerEvents(env), e))
    case Throw(e2) => Throw(e2)
    case Ok(st) => if st.result.Some? then Ok(st.result.value) else Throw(e)
  }

  /** HandleAuthenticateAsync, given what ParseApiKeyAsync returned or threw. */
  function Authenticate(env: HandlerEnv, req: Request, parsed: Outcome<NString>): (r: Outcome<AuthResult>)
    ensures IgnoreAuthenticationIfAllowAnonymous(env, req) ==> r == Ok(NoResult)
    ensures !IgnoreAuthenticationIfAllowAnonymous(env, req) && parsed.Throw? ==>
      r == Ok(FailMessage(ParseErrorMessage + env.newLine + parsed.exception.message))
    ensures !IgnoreAuthenticationIfAllowAnonymous(env, req) && parsed.Ok? && IsNullOrWhiteSpace(parsed.value) ==>
      r == Ok(NoResult)
  {
    if IgnoreAuthenticationIfAllowAnonymous(env, req) then Ok(NoResult)
    else
      match parsed
      case Throw(e) => Ok(FailMessage(ParseErrorMessage + env.newLine + e.message))
      case Ok(apiKey) =>
        if IsNullOrWhiteSpace(apiKey) then Ok(NoResult)
        else
          match Guarded(env, apiKey.value)
          case Ok(result) => Ok(result)
          case Throw(e) => FailedStep(env, e)
  }

  /** The whole authentication of a request by one of the five handlers:
      its extractor, then HandleAuthenticateAsync. Options reach a handler
      only after ApiKeyPostConfigureOptions accepted them. */
  function AuthenticateRequest(env: HandlerEnv, req: Request, parse: AuthorizationParser): (r: Outcome<AuthResult>)
    requires PostConfigure(env.options).None?
    ensures IgnoreAuthenticationIfAllowAnonymous(env, req) ==> r == Ok(NoResult)
    ensures var key := ParseApiKey(env.strategy, req, env.schemeName, Str(env.options.keyName), parse);
      !IgnoreAuthenticationIfAllowAnonymous(env, req) && IsNullOrWhiteSpace(key) ==> r == Ok(NoResult)
    ensures var key := ParseApiKey(env.strategy, req, env.schemeName, Str(env.options.keyName), parse);
      !IgnoreAuthenticationIfAllowAnonymous(env, req) && !IsNullOrWhiteSpace(key) ==>
        (Guarded(env, key.value).Ok? ==> r == Guarded(env, key.value)) &&
        (Guarded(env, key.value).Throw? ==> r == FailedStep(env, Guarded(env, key.value).exception))
  {
    ConfiguredOptionsHaveKeyName(env.options);
    Authenticate(env, req, Ok(ParseApiKey(env.strategy, req, env.schemeName, env.options.keyName.value, parse)))
  }

  // ---------------------------------------------------------------------
  // Specification of challenge and forbid.

  /** GetWwwAuthenticateSchemeName: KeyName under the legacy flag, else the
      scheme name. */
  function WwwAuthenticateSchemeName(env: HandlerEnv): (r: NString)
    ensures env.options.forLegacyUseKeyNameAsSchemeNameOnWWWAuthenticateHeader ==> r == env.options.keyName
    ensures !env.options.forLegacyUseKeyNameAsSchemeNameOnWWWAuthenticateHeader ==> r == Some(env.schemeName)
  {
    if env.options.forLegacyUseKeyNameAsSchemeNameOnWWWAuthenticateHeader then env.options.keyName
    else Some(env.schemeName)
  }

  /** The Challenge property, the WWW-Authenticate value (sections 2.2 and
      4.1 of RFC 7235, with the charset parameter of section 2.1 of RFC
      7617); null values interpolate as "". */
  function ChallengeValue(env: HandlerEnv): string {
    Str(WwwAuthenticateSchemeName(env)) + " realm=\"" + Str(env.options.realm) + "\", charset=\"UTF-8\", in=\""
      + InParameter(env.strategy) + "\", key_name=\"" + Str(env.options.keyName) + "\""
  }

  /** HandleChallengeAsync: after the OnHandleChallenge delegate, a handled
      challenge stops; otherwise the header is written unless suppressed,
      and the base handler answers 401. */
  function ChallengeOutcome(env: HandlerEnv, response: ResponseState): (r: ResponseState)
    ensures var reply := HandleChallengeAsync(HandlerEvents(env), response);
      reply.callsHandled ==> r == reply.response
  {
    var reply := HandleChallengeAsync(HandlerEvents(env), response);
    if reply.callsHandled then reply.response
    else
      var written :=
        if env.options.suppressWWWAuthenticateHeader then reply.response
        else reply.response.(headers := reply.response.headers[WwwAuthenticateHeaderName := ChallengeValue(env)]);
      written.(statusCode := 401)
  }

  /** HandleForbiddenAsync: after the OnHandleForbidden delegate, a handled
      forbid stops; otherwise the base handler answers 403. */
  function ForbidOutcome(env: HandlerEnv, response: ResponseState): (r: ResponseState)
    ensures var reply := HandleForbiddenAsync(HandlerEvents(env), response);
      reply.callsHandled ==> r == reply.response
  {
    var reply := HandleForbiddenAsync(HandlerEvents(env), response);
    if reply.callsHandled then reply.response else reply.response.(statusCode := 403)
  }

  // ---------------------------------------------------------------------
  // The handler, step by step, with the context objects.

  class ApiKeyHandler {
    const env: HandlerEnv
    /** The Events property, resolved once. */
    const events: ApiKeyEvents
    const response: Response

    constructor (env: HandlerEnv, response: Response)
      ensures this.env == env && this.events == HandlerEvents(env) && this.response == response
    {
      this.env := env;
      events := HandlerEvents(env);
      this.response := response;
    }

    method RaiseAndHandleEventValidateKey(apiKey: string) returns (result: Option<AuthResult>, error: Option<Exception>)
      requires events == HandlerEvents(env)
      ensures Finished(result, error) == ValidateKeyStep(env, apiKey)
    {
      var context := new ValidateKeyContext(env.schemeName, env.options.claimsIssuer, apiKey);
      error := context.Run(ValidateKeyAsync(events, apiKey));
      result := None;
      if error.Some? {
        return;
      }
      if context.core.result.Some? {
        return context.core.result, None;
      }
      if IsAuthenticated(context.core.principal) {
        error := context.core.Success();
        return context.core.result, error;
      }
    }

    method ValidateUsingApiKeyProviderAsync(apiKey: string) returns (validated: Option<ApiKey>, error: Option<Exception>)
      ensures Finished(validated, error) == ValidateUsingApiKeyProvider(env.options, apiKey)
    {
      validated := None;
      var providerType := env.options.apiKeyProviderType;
      var provider: Option<Provider> := None;
      if providerType.Some? {
        provider := providerType.value.instance;
      }
      if provider.None? {
        return None, Some(Exception(InvalidOperation, ResolverMessage));
      }
      var provided := provider.value(apiKey);
      if provided.Throw? {
        return None, Some(provided.exception);
      }
      return provided.value, None;
    }

    method RaiseAndHandleAuthenticationSucceeded(key: ApiKey) returns (result: AuthResult, error: Option<Exception>)
      requires events == HandlerEvents(env)
      ensures Finished(result, error) == SucceededStep(env, key)
    {
      result := NoResult;
      var principal := BuildClaimsPrincipal(key.ownerName, Some(env.schemeName), Some(HandlerClaimsIssuer(env)), key.claims);
      if principal.Throw? {
        return NoResult, Some(principal.exception);
      }
      var context := new AuthenticationSucceededContext(Some(principal.value));
      error := context.Run(AuthenticationSucceededAsync(events, Some(principal.value)));
      if error.Some? {
        return;
      }
      if context.core.result.Some? {
        return context.core.result.value, None;
      }
      if IsAuthenticated(context.core.principal) {
        error := context.core.Success();
        return context.core.result.value, error;
      }
      return FailMessage(NoPrincipalMessage), None;
    }

    /** The try block of HandleAuthenticateAsync. */
    method Validate(apiKey: string) returns (result: AuthResult, error: Option<Exception>)
      requires events == HandlerEvents(env)
      ensures Finished(result, error) == Guarded(env, apiKey)
    {
      result := NoResult;
      var hookResult;
      hookResult, error := RaiseAndHandleEventValidateKey(apiKey);
      if error.Some? {
        return;
      }
      if hookResult.Some? {
        return hookResult.value, None;
      }
      var validated;
      validated, error := ValidateUsingApiKeyProviderAsync(apiKey);
      if error.Some? {
        return;
      }
      if validated.None?
         || (!env.options.forLegacyIgnoreExtraValidatedApiKeyCheck && !EqualsIgnoreCase(validated.value.key, Some(apiKey))) {
        return FailMessage(InvalidKeyMessage), None;
      }
      result, error := RaiseAndHandleAuthenticationSucceeded(validated.value);
    }

    method HandleAuthenticateAsync(req: Request, parsed: Outcome<NString>) returns (result: AuthResult, error: Option<Exception>)
      requires events == HandlerEvents(env)
      ensures Finished(result, error) == Authenticate(env, req, parsed)
    {
      error := None;
      if env.options.ignoreAuthenticationIfAllowAnonymous && req.endpointAllowsAnonymous {
        return NoResult, None;
      }
      if parsed.Throw? {
        return FailMessage(ParseErrorMessage + env.newLine + parsed.exception.message), None;
      }
      var apiKey := parsed.value;
      if IsNullOrWhiteSpace(apiKey) {
        return NoResult, None;
      }
      result, error := Validate(apiKey.value);
      if error.None? {
        return;
      }
      var exception := error.value;
      var context := new AuthenticationFailedContext(exception);
      error := context.Run(AuthenticationFailedAsync(events, exception));
      if error.Some? {
        return;
      }
      if context.core.result.Some? {
        return context.core.result.value, None;
      }
      return NoResult, Some(exception);
    }

    method HandleChallengeAsync()
      requires events == HandlerEvents(env)
      modifies response
      ensures response.State() == ChallengeOutcome(env, old(response.State()))
    {
      var context := new HandleChallengeContext();
      var reply := Events.HandleChallengeAsync(events, response.State());
      response.Assign(reply.response);
      if reply.callsHandled {
        context.Handled();
      }
      if context.isHandled {
        return;
      }
      if !env.options.suppressWWWAuthenticateHeader {
        response.headers := response.headers[WwwAuthenticateHeaderName := ChallengeValue(env)];
      }
      response.statusCode := 401;
    }

    method HandleForbiddenAsync()
      requires events == HandlerEvents(env)
      modifies response
      ensures response.State() == ForbidOutcome(env, old(response.State()))
    {
      var context := new HandleForbiddenContext();
      var reply := Events.HandleForbiddenAsync(events, response.State());
      response.Assign(reply.response);
      if reply.callsHandled {
        context.Handled();
      }
      if context.isHandled {
        return;
      }
      response.statusCode := 403;
    }
  }
}
