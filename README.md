# API-key authentication handler, modelled in Dafny

This project models the core of the AspNetCore.Authentication.ApiKey library. The library is an
ASP.NET Core authentication scheme that reads an API key from the request and validates it. It
answers with an authentication result (a ticket for a principal, a failure, or no result), a 401
challenge or a 403 forbid.

The model covers these parts:

- **Claim defaulting** (`Claims`, from ApiKeyUtils.BuildClaimsPrincipal). The method fills a claim
  list step by step. It is proved equal to the function `ClaimsPrincipalOf`, and the owner
  Name/NameIdentifier rules are proved about that function.
- **Options** (`Options`). ApiKeyOptions is a datatype with its constructor defaults.
  ApiKeyPostConfigureOptions.PostConfigure is a function that returns the exception it throws,
  if any.
- **Extractors** (`Extractors`). The five ParseApiKeyAsync overrides are functions of an abstract
  request. AuthenticationHeaderValue.TryParse is an abstract parser, passed in as a parameter.
- **Contexts** (`ResultContexts`, `ValidateKeyContexts`, `SucceededContexts`,
  `FailedContexts`, `ResponseContexts`). These are classes whose fields the methods update.
  - A hook (an `Func<Context, Task>` delegate) is modelled by the calls it makes on its context,
    a *script*. For example `[ValidationSucceeded(owner, claims)]` or
    `[SucceededBase(CallFail(m))]`.
  - Each context runs a script with a loop (`Run`). The loop is proved against a recursive
    function that applies the calls in order and stops at the first exception.
  - The challenge and forbid delegates are modelled by the response they leave behind and by
    whether they called `Handled()`.
- **Events** (`Events`). ApiKeyEvents is a datatype of five optional delegates. Its dispatch
  functions do nothing when a delegate is null.
- **Handler** (`Handler`, `HandlerProperties`).
  - The pure functions `Authenticate`, `ChallengeOutcome` and `ForbidOutcome` state what
    HandleAuthenticateAsync, HandleChallengeAsync and HandleForbiddenAsync do.
  - The class `ApiKeyHandler` carries these out step by step with the context objects. Each of
    its methods is proved equal to the corresponding function.
  - `HandlerProperties` proves the observable behaviour about those functions: the anonymous
    short-circuit, blank keys, hook precedence, the key check, exception routing, and the
    challenge header.

Modelling conventions:

- A nullable .NET string is `NString = Option<string>`. String interpolation renders null as
  `""` (`Str`).
- An exception is a value: `Outcome<T> = Ok(value) | Throw(exception)`. A method returns its
  exception in an `error: Option<Exception>` out-parameter.
- `AuthenticateResult.Fail(string)` is modelled as a failure that carries an
  authentication-failure exception with that message (`FailMessage`).
- `StringComparison.OrdinalIgnoreCase` is modelled as ASCII case folding
  (`Common.SameIgnoreCase`).
- `string.IsNullOrWhiteSpace` uses the .NET white-space characters, written out by code point.
- A principal is authenticated when its first identity has a non-empty authentication type.
  This is how `ClaimsPrincipal.Identity.IsAuthenticated` behaves.
- Framework types are written from their documented behaviour. They are not part of this
  model's sources. This covers ResultContext, AuthenticateResult, ClaimsPrincipal and Claim,
  including the default issuer "LOCAL AUTHORITY".
- Options reach a handler only after ApiKeyPostConfigureOptions has accepted them, so
  `AuthenticateRequest` requires `PostConfigure(options).None?`.

Where the sources disagree:

- **The `in` parameter of the challenge.** ApiKeyHandlerBase.cs computes it with a private type
  switch that knows four handlers and throws for any other. ApiKeyInAuthorizationHeaderHandler.cs
  and ApiKeyInRouteValuesHandler.cs instead override a protected member, and the route-values
  handler answers "route_values". These files come from different versions of the library. The
  model follows the override design: `InParameter` is a total function of the five strategies.
- **Test expectations that differ from the code.** The model follows the code in both cases.
  - ApiKeyOptionsTests.cs:53 expects a challenge header without `in`/`key_name`.
  - ApiKeyAuthenticationFailedContextTests.cs:15 expects a different message for the missing
    provider.

## Model

| member | source | states |
|---|---|---|
| Claims.NewClaim | src/AspNetCore.Authentication.ApiKey/ApiKeyUtils.cs:37 | a claim keeps its type, value and value type; a null or empty issuer becomes "LOCAL AUTHORITY" |
| Claims.DefaultedClaims | src/AspNetCore.Authentication.ApiKey/ApiKeyUtils.cs:30-44 | the supplied claims are a prefix of the result, in order; at most two claims are added; a blank owner adds none; every added claim has the owner as its value, a string value type, the given issuer, and the NameIdentifier or Name type |
| Claims.HasClaimType | src/AspNetCore.Authentication.ApiKey/ApiKeyUtils.cs:35 | no claim list that is empty has a claim of a type; a first claim whose type matches ignoring case does |
| Claims.ClaimsPrincipalOf | src/AspNetCore.Authentication.ApiKey/ApiKeyUtils.cs:26-47 | throws ArgumentNullException("schemeName") exactly for a blank scheme name; otherwise one identity whose authentication type is the scheme name and whose claims are the defaulted claims |
| Claims.BuildClaimsPrincipal | src/AspNetCore.Authentication.ApiKey/ApiKeyUtils.cs:26-47 | throws ArgumentNullException("schemeName") exactly when the scheme name is null or white space; otherwise returns one identity whose authentication type is the scheme name, holding the defaulted claims |
| Claims.NameIdentifierAddedIff | src/AspNetCore.Authentication.ApiKey/ApiKeyUtils.cs:35-38 | for a non-blank owner, a NameIdentifier claim valued owner is added if and only if no supplied claim has that type (ignoring case) |
| Claims.NameAddedIff | src/AspNetCore.Authentication.ApiKey/ApiKeyUtils.cs:40-43 | for a non-blank owner, a Name claim is added if and only if no supplied claim has that type, and it comes after any added NameIdentifier |
| Claims.BuiltPrincipalIsAuthenticated | src/AspNetCore.Authentication.ApiKey/ApiKeyUtils.cs:46 | a principal built for a non-blank scheme name is authenticated |
| Claims.OwnerWithoutClaimsGetsTwo | src/AspNetCore.Authentication.ApiKey/ApiKeyUtils.cs:33-44 | owner "Test" with no claims gets exactly a NameIdentifier and a Name claim, both valued "Test" |
| Claims.SuppliedNameIsKept | src/AspNetCore.Authentication.ApiKey/ApiKeyUtils.cs:40-43 | a supplied Name claim is kept unchanged and only a NameIdentifier is added |
| Claims.NameIdentifierIsNotName | src/AspNetCore.Authentication.ApiKey/ApiKeyUtils.cs:35-43 | the two claim types differ even ignoring case, so both checks are independent |
| Options.NewOptions | src/AspNetCore.Authentication.ApiKey/ApiKeyOptions.cs:14-73 | a new options object has a fresh ApiKeyEvents; the flags are false; KeyName, Realm and the provider type are null |
| Options.WithEvents | src/AspNetCore.Authentication.ApiKey/ApiKeyOptions.cs:45-49 | the Events getter returns exactly what the setter last stored, and nothing else changes |
| Options.PostConfigure | src/AspNetCore.Authentication.ApiKey/ApiKeyPostConfigureOptions.cs:14-30 | it succeeds exactly when a realm is present or suppressed, KeyName is not blank, and OnValidateKey, EventsType or a provider type is set; any failure is an InvalidOperationException |
| Options.RealmMissing | src/AspNetCore.Authentication.ApiKey/ApiKeyPostConfigureOptions.cs:16 | the realm guard never fires with the header suppressed, and fires for a null realm otherwise |
| Options.KeyNameMissing | src/AspNetCore.Authentication.ApiKey/ApiKeyPostConfigureOptions.cs:21 | the key-name guard fires for a null or empty KeyName |
| Options.ResolverMissing | src/AspNetCore.Authentication.ApiKey/ApiKeyPostConfigureOptions.cs:26 | the resolver guard is silenced by a provider type, an EventsType or an OnValidateKey delegate, and fires for fresh events with neither type |
| Options.PostConfigureReportsFirstViolation | src/AspNetCore.Authentication.ApiKey/ApiKeyPostConfigureOptions.cs:16-29 | the realm, key-name and resolver guards are checked in that order, and only the first violation is reported, with its exact message |
| Options.SuppressedHeaderNeedsNoRealm | src/AspNetCore.Authentication.ApiKey/ApiKeyPostConfigureOptions.cs:16 | with the header suppressed, a blank realm is never reported |
| Options.AnyResolverSuffices | src/AspNetCore.Authentication.ApiKey/ApiKeyPostConfigureOptions.cs:26 | any one of OnValidateKey, EventsType or a provider type satisfies the third guard |
| Options.NewOptionsNeedRealm | src/AspNetCore.Authentication.ApiKey/ApiKeyPostConfigureOptions.cs:16-19 | default options are rejected for the missing realm |
| Options.ConfiguredOptionsHaveKeyName | src/AspNetCore.Authentication.ApiKey/ApiKeyPostConfigureOptions.cs:21-24 | accepted options have a non-blank KeyName |
| Extractors.FromHeader | src/AspNetCore.Authentication.ApiKey/ApiKeyInHeaderHandler.cs:20-29 | an absent header gives ""; a present header gives its first value |
| Extractors.FromQuery | src/AspNetCore.Authentication.ApiKey/ApiKeyInQueryParamsHandler.cs:20-29 | an absent query parameter gives ""; a present one gives its first value |
| Extractors.FromHeaderOrQuery | src/AspNetCore.Authentication.ApiKey/ApiKeyInHeaderOrQueryParamsHandler.cs:23-48 | with neither a query parameter nor a header named KeyName, the key is the parameter of an Authorization header whose scheme is KeyName (ignoring case, possibly null), else "" |
| Extractors.FromAuthorizationHeader | src/AspNetCore.Authentication.ApiKey/ApiKeyInAuthorizationHeaderHandler.cs:32-46 | never null; an Authorization header whose scheme equals the scheme name or KeyName, ignoring case, gives its parameter, or "" for a null parameter; a missing or unparsable header, or any other scheme, gives "" |
| Extractors.FromRouteValues | src/AspNetCore.Authentication.ApiKey/ApiKeyInRouteValuesHandler.cs:30-39 | never null; a string route value KeyName is returned as is; a missing, null or non-string value gives "" |
| Extractors.ParseApiKey | src/AspNetCore.Authentication.ApiKey/ApiKeyHandlerBase.cs:39 | the Authorization-header and route-value handlers never yield null; the header and query handlers yield "" when their source is absent |
| Extractors.InParameter | src/AspNetCore.Authentication.ApiKey/ApiKeyHandlerBase.cs:219-233 | the `in` value of each handler: "header", "query_params", "header_or_query_params" and "authorization_header" from the base switch, and "route_values" from the override of ApiKeyInRouteValuesHandler.cs:14-15; each value is non-empty and holds no quote or backslash, so it can stand inside the quoted parameter; InParameterIsInjective and SampleChallenge state the values themselves |
| Extractors.InParameterIsInjective | src/AspNetCore.Authentication.ApiKey/ApiKeyHandlerBase.cs:219-233 | two handlers announce the same `in` value if and only if they are the same handler |
| Extractors.ExtractorsReadOnlyTheirSource | src/AspNetCore.Authentication.ApiKey/ApiKeyInHeaderHandler.cs:20-29 | each single-source extractor depends only on its own entry of the request; the Authorization-header extractor depends only on the parsed Authorization header |
| Extractors.HeaderOrQueryPrecedence | src/AspNetCore.Authentication.ApiKey/ApiKeyInHeaderOrQueryParamsHandler.cs:26-35 | a query parameter KeyName decides the key whatever the headers hold, even when blank; failing that, a header KeyName decides it whatever the Authorization header holds |
| Extractors.HeaderOrQueryAcceptsEachLocation | src/AspNetCore.Authentication.ApiKey/ApiKeyInHeaderOrQueryParamsHandler.cs:23-48 | a key sent only in the query, only in a header, or only as an Authorization parameter with scheme KeyName is found |
| Extractors.SchemeNameAcceptedOnlyByAuthorizationHeaderHandler | src/AspNetCore.Authentication.ApiKey/ApiKeyInHeaderOrQueryParamsHandler.cs:40 | an Authorization scheme equal to the scheme name but not to KeyName is accepted by the Authorization-header handler and yields "" in header-or-query |
| Extractors.AuthorizationSchemeIgnoresCase | src/AspNetCore.Authentication.ApiKey/ApiKeyInAuthorizationHeaderHandler.cs:36 | the scheme "apikey" matches a scheme registered as "ApiKey" |
| Events.NewEventsAreInert | src/AspNetCore.Authentication.ApiKey/Events/ApiKeyEvents.cs:23-108 | with every delegate null, every dispatcher leaves its context unchanged and no response is handled |
| Events.DispatchUsesOwnDelegate | src/AspNetCore.Authentication.ApiKey/Events/ApiKeyEvents.cs:70-108 | each dispatcher reads its own delegate and no other |
| Events.NewEvents | src/AspNetCore.Authentication.ApiKey/Events/ApiKeyEvents.cs:23-59 | a new ApiKeyEvents has all five delegates null |
| Events.ValidateKeyAsync | src/AspNetCore.Authentication.ApiKey/Events/ApiKeyEvents.cs:70 | with OnValidateKey null the context gets no calls; otherwise it gets the calls the delegate makes for the key |
| Events.AuthenticationSucceededAsync | src/AspNetCore.Authentication.ApiKey/Events/ApiKeyEvents.cs:77 | with OnAuthenticationSucceeded null no calls; otherwise the calls the delegate makes for the principal |
| Events.AuthenticationFailedAsync | src/AspNetCore.Authentication.ApiKey/Events/ApiKeyEvents.cs:84 | with OnAuthenticationFailed null no calls; otherwise the calls the delegate makes for the exception |
| Events.HandleChallengeAsync | src/AspNetCore.Authentication.ApiKey/Events/ApiKeyEvents.cs:97 | with OnHandleChallenge null the response is unchanged and not handled; otherwise what the delegate leaves |
| Events.HandleForbiddenAsync | src/AspNetCore.Authentication.ApiKey/Events/ApiKeyEvents.cs:108 | with OnHandleForbidden null the response is unchanged and not handled; otherwise what the delegate leaves |
| ResultContexts.FailMessage | src/AspNetCore.Authentication.ApiKey/ApiKeyHandlerBase.cs:57 | Fail(message) is a failure whose exception carries exactly that message |
| ResultContexts.ApplyResultCall | src/AspNetCore.Authentication.ApiKey/ApiKeyHandlerBase.cs:151-155 | a call throws exactly when it is a raise, or Success() on a null principal; Success() on a principal makes a ticket for it; every call except assigning Principal keeps the principal and sets a result |
| ResultContexts.RunResultCalls | src/AspNetCore.Authentication.ApiKey/ApiKeyHandlerBase.cs:90-97 | once a result is set it stays set; a script that completes contains no raise |
| ResultContexts.ResultContext.Run | src/AspNetCore.Authentication.ApiKey/ApiKeyHandlerBase.cs:90 | running a script on the context leaves the state, or the exception, given by RunResultCalls |
| ValidateKeyContexts.ValidationSucceededOn | src/AspNetCore.Authentication.ApiKey/Events/ApiKeyValidateKeyContext.cs:53-57 | throws exactly for a blank scheme name; otherwise the principal is authenticated, the result is Success for it, and its claims are the defaulted claims with Options.ClaimsIssuer |
| ValidateKeyContexts.ValidationFailedOn | src/AspNetCore.Authentication.ApiKey/Events/ApiKeyValidateKeyContext.cs:64-72 | a null or blank message gives NoResult, any other gives Fail(message); the principal is untouched |
| ValidateKeyContexts.ApplyValidateKeyCall | src/AspNetCore.Authentication.ApiKey/Events/ApiKeyValidateKeyContext.cs:41-81 | ValidationFailed and ValidationFailedWith never throw and keep the principal; ValidationSucceeded throws exactly for a blank scheme name; every context member that completes leaves a Result, and a set Result stays set |
| ValidateKeyContexts.RunValidateKeyCalls | src/AspNetCore.Authentication.ApiKey/ApiKeyHandlerBase.cs:143-146 | once a result is set it stays set |
| ValidateKeyContexts.ValidationSucceededWithoutOwner | src/AspNetCore.Authentication.ApiKey/Events/ApiKeyValidateKeyContext.cs:41-44 | ValidationSucceeded(claims) adds no owner claims: the claims are exactly the supplied ones |
| ValidateKeyContexts.ValidateKeyContext.constructor | src/AspNetCore.Authentication.ApiKey/Events/ApiKeyValidateKeyContext.cs:24-33 | ApiKey is the key given; Principal and Result start null |
| ValidateKeyContexts.ValidateKeyContext.ValidationSucceeded | src/AspNetCore.Authentication.ApiKey/Events/ApiKeyValidateKeyContext.cs:53-57 | builds the principal, assigns it and calls Success(), ending in the state ValidationSucceededOn gives |
| ValidateKeyContexts.ValidateKeyContext.ValidationSucceededWithClaims | src/AspNetCore.Authentication.ApiKey/Events/ApiKeyValidateKeyContext.cs:41-44 | the same as ValidationSucceeded with a null owner |
| ValidateKeyContexts.ValidateKeyContext.ValidationFailed | src/AspNetCore.Authentication.ApiKey/Events/ApiKeyValidateKeyContext.cs:64-72 | ends in the state ValidationFailedOn gives |
| ValidateKeyContexts.ValidateKeyContext.ValidationFailedWith | src/AspNetCore.Authentication.ApiKey/Events/ApiKeyValidateKeyContext.cs:78-81 | Result becomes Fail(exception); the principal is kept |
| ValidateKeyContexts.ValidateKeyContext.Run | src/AspNetCore.Authentication.ApiKey/ApiKeyHandlerBase.cs:143-144 | running an OnValidateKey script ends where RunValidateKeyCalls says |
| SucceededContexts.ApplySucceededCall | src/AspNetCore.Authentication.ApiKey/Events/ApiKeyAuthenticationSucceededContext.cs:41-72 | the context's own members never set Result; ReplacePrincipal(null), AddClaim(null) and AddClaims(null) throw ArgumentNullException; ReplacePrincipal(p) makes Principal p |
| SucceededContexts.RunSucceededCalls | src/AspNetCore.Authentication.ApiKey/ApiKeyHandlerBase.cs:167-168 | a Result once set stays set, and a script containing a raise ends in an exception |
| SucceededContexts.AddClaimsOn | src/AspNetCore.Authentication.ApiKey/Events/ApiKeyAuthenticationSucceededContext.cs:57-72 | throws exactly when there is no principal or identity; otherwise appends to the identity's claims and keeps the result |
| SucceededContexts.OwnMembersKeepResult | src/AspNetCore.Authentication.ApiKey/Events/ApiKeyAuthenticationSucceededContext.cs:41-72 | a script that uses only the context's own members leaves Result as it was |
| SucceededContexts.AddClaimThenAddClaims | src/AspNetCore.Authentication.ApiKey/Events/ApiKeyAuthenticationSucceededContext.cs:57-72 | AddClaim then AddClaims keep every existing claim in front and append the new ones in call order |
| SucceededContexts.AuthenticationSucceededContext.constructor | src/AspNetCore.Authentication.ApiKey/Events/ApiKeyAuthenticationSucceededContext.cs:24-28 | Principal is the given principal and Result is null |
| SucceededContexts.AuthenticationSucceededContext.ReplacePrincipal | src/AspNetCore.Authentication.ApiKey/Events/ApiKeyAuthenticationSucceededContext.cs:41-44 | a null principal throws and leaves the state unchanged; otherwise Principal becomes the argument |
| SucceededContexts.AuthenticationSucceededContext.RejectPrincipal | src/AspNetCore.Authentication.ApiKey/Events/ApiKeyAuthenticationSucceededContext.cs:50 | Principal becomes null; Result is kept |
| SucceededContexts.AuthenticationSucceededContext.AddClaim | src/AspNetCore.Authentication.ApiKey/Events/ApiKeyAuthenticationSucceededContext.cs:57-61 | ends where ApplySucceededCall says for AddClaim |
| SucceededContexts.AuthenticationSucceededContext.AddClaims | src/AspNetCore.Authentication.ApiKey/Events/ApiKeyAuthenticationSucceededContext.cs:68-72 | ends where ApplySucceededCall says for AddClaims |
| SucceededContexts.AuthenticationSucceededContext.Run | src/AspNetCore.Authentication.ApiKey/ApiKeyHandlerBase.cs:167-168 | running an OnAuthenticationSucceeded script ends where RunSucceededCalls says |
| FailedContexts.AuthenticationFailedContext.constructor | src/AspNetCore.Authentication.ApiKey/Events/ApiKeyAuthenticationFailedContext.cs:21-30 | Exception is the given exception; Principal and Result start null |
| FailedContexts.AuthenticationFailedContext.Run | src/AspNetCore.Authentication.ApiKey/ApiKeyHandlerBase.cs:89-90 | running an OnAuthenticationFailed script ends where RunResultCalls says |
| ResponseContexts.HandleChallengeContext.constructor | src/AspNetCore.Authentication.ApiKey/Events/ApiKeyHandleChallengeContext.cs:21-30 | IsHandled starts false |
| ResponseContexts.HandleChallengeContext.Handled | src/AspNetCore.Authentication.ApiKey/Events/ApiKeyHandleChallengeContext.cs:35 | IsHandled becomes true, and a second call changes nothing |
| ResponseContexts.HandleForbiddenContext.constructor | src/AspNetCore.Authentication.ApiKey/Events/ApiKeyHandleForbiddenContext.cs:21-30 | IsHandled starts false |
| ResponseContexts.HandleForbiddenContext.Handled | src/AspNetCore.Authentication.ApiKey/Events/ApiKeyHandleForbiddenContext.cs:35 | IsHandled becomes true, and a second call changes nothing |
| Handler.HandlerEvents | src/AspNetCore.Authentication.ApiKey/ApiKeyHandlerBase.cs:31-37 | with neither EventsType nor Options.Events the handler uses a fresh ApiKeyEvents; with Options.Events only, it uses that object |
| Handler.HandlerClaimsIssuer | src/AspNetCore.Authentication.ApiKey/ApiKeyHandlerBase.cs:164 | without Options.ClaimsIssuer the issuer is the scheme name |
| Handler.IgnoreAuthenticationIfAllowAnonymous | src/AspNetCore.Authentication.ApiKey/ApiKeyHandlerBase.cs:235-243 | authentication is skipped exactly when the option is set and the endpoint allows anonymous access |
| Handler.ValidateKeyStep | src/AspNetCore.Authentication.ApiKey/ApiKeyHandlerBase.cs:141-159 | without an OnValidateKey delegate the step yields no result, so the provider is asked |
| Handler.ValidateUsingApiKeyProvider | src/AspNetCore.Authentication.ApiKey/ApiKeyHandlerBase.cs:186-210 | without a provider type, or when the type does not give an IApiKeyProvider, it throws InvalidOperationException with the resolver message; otherwise it yields what the provider returns or throws |
| Handler.KeyRejected | src/AspNetCore.Authentication.ApiKey/ApiKeyHandlerBase.cs:77-79 | a null key record is rejected; under the legacy flag only a null record is; the very key that was sent is accepted |
| Handler.SucceededStep | src/AspNetCore.Authentication.ApiKey/ApiKeyHandlerBase.cs:161-184 | a blank scheme name makes building the principal throw ArgumentNullException("schemeName") |
| Handler.Guarded | src/AspNetCore.Authentication.ApiKey/ApiKeyHandlerBase.cs:66-86 | an OnValidateKey exception or Result decides the answer; otherwise a provider exception escapes, a rejected key gives "Invalid API Key provided by IApiKeyProvider." and an accepted one goes to the succeeded step |
| Handler.FailedStep | src/AspNetCore.Authentication.ApiKey/ApiKeyHandlerBase.cs:87-98 | without an OnAuthenticationFailed delegate the same exception is rethrown |
| Handler.Authenticate | src/AspNetCore.Authentication.ApiKey/ApiKeyHandlerBase.cs:41-99 | an anonymous endpoint with the option set gives NoResult; a parse exception gives Fail("Error parsing api key." + NewLine + message); a null or blank key gives NoResult |
| Handler.AuthenticateRequest | src/AspNetCore.Authentication.ApiKey/ApiKeyHandlerBase.cs:41-99 | for accepted options and each extractor: an anonymous endpoint or a blank extracted key gives NoResult; otherwise the guarded answer, or the failed hook's answer for its exception |
| Handler.WwwAuthenticateSchemeName | src/AspNetCore.Authentication.ApiKey/ApiKeyHandlerBase.cs:212-217 | the scheme token is KeyName under the legacy flag, else the scheme name |
| Handler.ChallengeValue | src/AspNetCore.Authentication.ApiKey/ApiKeyHandlerBase.cs:26 | the WWW-Authenticate value; ChallengeStartsWithScheme, ChallengeEndsWithKeyName and SampleChallenge state its form |
| Handler.ChallengeOutcome | src/AspNetCore.Authentication.ApiKey/ApiKeyHandlerBase.cs:124-139 | a challenge the delegate handled leaves the response as the delegate left it |
| Handler.ForbidOutcome | src/AspNetCore.Authentication.ApiKey/ApiKeyHandlerBase.cs:102-113 | a forbid the delegate handled leaves the response as the delegate left it |
| Handler.ApiKeyHandler.RaiseAndHandleEventValidateKey | src/AspNetCore.Authentication.ApiKey/ApiKeyHandlerBase.cs:141-159 | with a validate-key context, yields what ValidateKeyStep specifies |
| Handler.ApiKeyHandler.ValidateUsingApiKeyProviderAsync | src/AspNetCore.Authentication.ApiKey/ApiKeyHandlerBase.cs:186-210 | yields what ValidateUsingApiKeyProvider specifies |
| Handler.ApiKeyHandler.RaiseAndHandleAuthenticationSucceeded | src/AspNetCore.Authentication.ApiKey/ApiKeyHandlerBase.cs:161-184 | with a succeeded context, yields what SucceededStep specifies |
| Handler.ApiKeyHandler.Validate | src/AspNetCore.Authentication.ApiKey/ApiKeyHandlerBase.cs:66-86 | the try block yields what Guarded specifies |
| Handler.ApiKeyHandler.HandleAuthenticateAsync | src/AspNetCore.Authentication.ApiKey/ApiKeyHandlerBase.cs:41-99 | yields the result or exception Authenticate specifies |
| Handler.ApiKeyHandler.HandleChallengeAsync | src/AspNetCore.Authentication.ApiKey/ApiKeyHandlerBase.cs:124-139 | leaves the response ChallengeOutcome specifies |
| Handler.ApiKeyHandler.HandleForbiddenAsync | src/AspNetCore.Authentication.ApiKey/ApiKeyHandlerBase.cs:102-113 | leaves the response ForbidOutcome specifies |
| HandlerProperties.AnonymousEndpointIsNotAuthenticated | src/AspNetCore.Authentication.ApiKey/ApiKeyHandlerBase.cs:43-47 | with IgnoreAuthenticationIfAllowAnonymous on an anonymous endpoint the result is NoResult, whatever was parsed and whatever events or provider are configured |
| HandlerProperties.BlankKeyIsNoResult | src/AspNetCore.Authentication.ApiKey/ApiKeyHandlerBase.cs:60-64 | a null or blank key gives NoResult, never a failure |
| HandlerProperties.EmptyHeaderIsNoResult | src/AspNetCore.Authentication.ApiKey/ApiKeyInHeaderHandler.cs:22-25 | a header sent with an empty value ends in NoResult |
| HandlerProperties.KeyInWrongPlaceIsNoResult | src/AspNetCore.Authentication.ApiKey/ApiKeyInQueryParamsHandler.cs:22-28 | a key sent only where the handler does not look ends in NoResult |
| HandlerProperties.ValidateKeyResultWins | src/AspNetCore.Authentication.ApiKey/ApiKeyHandlerBase.cs:68-73 | a result from OnValidateKey is the answer, whatever provider is registered |
| HandlerProperties.HookValidationSucceeded | src/AspNetCore.Authentication.ApiKey/ApiKeyHandlerBase.cs:141-149 | ValidationSucceeded in OnValidateKey authenticates the request with the defaulted claims |
| HandlerProperties.HookPrincipalWithoutResult | src/AspNetCore.Authentication.ApiKey/ApiKeyHandlerBase.cs:141-159 | for every OnValidateKey script: an exception from the context escapes; a Result it set is the answer; without a Result an authenticated Principal gives Success for it, and anything else lets the provider be asked |
| HandlerProperties.HookSetPrincipal | src/AspNetCore.Authentication.ApiKey/ApiKeyHandlerBase.cs:151-158 | a hook that only assigns Principal = p gives Success(p) when p is authenticated, and otherwise lets the provider be asked |
| HandlerProperties.HookValidationFailed | src/AspNetCore.Authentication.ApiKey/Events/ApiKeyValidateKeyContext.cs:64-72 | ValidationFailed in OnValidateKey gives Fail(message), or NoResult for a blank message, without asking the provider |
| HandlerProperties.RejectedKeyFails | src/AspNetCore.Authentication.ApiKey/ApiKeyHandlerBase.cs:76-83 | a null key record, or a key that differs from the parsed one without the legacy flag, gives Fail("Invalid API Key provided by IApiKeyProvider.") |
| HandlerProperties.KeyCheck | src/AspNetCore.Authentication.ApiKey/ApiKeyHandlerBase.cs:77-79 | a null record is always rejected; the same key is always accepted; a key of another length or a null key is rejected exactly when the legacy flag is off |
| HandlerProperties.KeyCheckIgnoresCase | src/AspNetCore.Authentication.ApiKey/ApiKeyHandlerBase.cs:78 | the provider's "KEY" accepts the parsed "key" |
| HandlerProperties.MissingProviderIsRoutedToFailedHook | src/AspNetCore.Authentication.ApiKey/ApiKeyHandlerBase.cs:186-197 | a missing provider type raises InvalidOperationException, which goes to OnAuthenticationFailed and escapes without it |
| HandlerProperties.ProviderKeyAuthenticates | src/AspNetCore.Authentication.ApiKey/ApiKeyHandlerBase.cs:76-85 | with no hooks and a provider that returns the sent key, the request succeeds with the owner's defaulted claims issued by the handler's ClaimsIssuer |
| HandlerProperties.SucceededHookWithoutResult | src/AspNetCore.Authentication.ApiKey/ApiKeyHandlerBase.cs:175-183 | a succeeded hook that sets no result gives Success for an authenticated principal, else Fail("No authenticated prinicipal set.") |
| HandlerProperties.RejectedPrincipalFails | src/AspNetCore.Authentication.ApiKey/ApiKeyHandlerBase.cs:182-183 | RejectPrincipal in the succeeded hook gives Fail("No authenticated prinicipal set.") |
| HandlerProperties.SucceededHookResultWins | src/AspNetCore.Authentication.ApiKey/ApiKeyHandlerBase.cs:161-184 | for every OnAuthenticationSucceeded script: an exception escapes; a Result it set is the answer; without one an authenticated Principal succeeds and anything else fails with "No authenticated prinicipal set." |
| HandlerProperties.SucceededHookRejectThenFail | src/AspNetCore.Authentication.ApiKey/ApiKeyHandlerBase.cs:170-173 | RejectPrincipal followed by Fail(message) ends in Fail(message), not in the no-principal failure |
| HandlerProperties.ExceptionsGoToFailedHook | src/AspNetCore.Authentication.ApiKey/ApiKeyHandlerBase.cs:87-90 | any exception from the hooks, the provider or principal building goes to OnAuthenticationFailed |
| HandlerProperties.PrincipalOnlyCallsKeepResult | src/AspNetCore.Authentication.ApiKey/ApiKeyHandlerBase.cs:92-97 | a failed-hook script that only assigns Principal completes and leaves Result unset |
| HandlerProperties.FailedHookOutcome | src/AspNetCore.Authentication.ApiKey/ApiKeyHandlerBase.cs:87-98 | for every OnAuthenticationFailed script: an exception the hook raises escapes; a Result it set is returned; without one the original exception is rethrown |
| HandlerProperties.FailedHookScripts | src/AspNetCore.Authentication.ApiKey/ApiKeyHandlerBase.cs:92-97 | a failed hook that only assigns Principal rethrows the same exception; one that calls Fail(message) answers with that failure |
| HandlerProperties.ChallengeStartsWithScheme | src/AspNetCore.Authentication.ApiKey/ApiKeyHandlerBase.cs:26 | the header starts with the scheme token, KeyName under the legacy flag and the scheme name otherwise, followed by the realm parameter |
| HandlerProperties.ChallengeParametersInOrder | src/AspNetCore.Authentication.ApiKey/ApiKeyHandlerBase.cs:26 | for every configuration the header begins with the scheme token, then realm="<Realm>", then charset="UTF-8", then in="<in value>", in that order |
| HandlerProperties.ChallengeEndsWithKeyName | src/AspNetCore.Authentication.ApiKey/ApiKeyHandlerBase.cs:26 | the header ends with the key_name parameter quoting KeyName (null as "") |
| HandlerProperties.SampleChallenge | src/AspNetCore.Authentication.ApiKey/ApiKeyHandlerBase.cs:26 | scheme "ApiKey", realm "Sample Web API" and key "X-API-KEY" in a header give exactly `ApiKey realm="Sample Web API", charset="UTF-8", in="header", key_name="X-API-KEY"` |
| HandlerProperties.UnhandledChallenge | src/AspNetCore.Authentication.ApiKey/ApiKeyHandlerBase.cs:129-138 | an unhandled challenge answers 401; unless suppressed it overwrites WWW-Authenticate and keeps every other header; when suppressed it keeps the headers |
| HandlerProperties.DefaultChallenge | src/AspNetCore.Authentication.ApiKey/ApiKeyHandlerBase.cs:124-139 | without a challenge delegate the response keeps its headers, gains the header unless suppressed, and answers 401 |
| HandlerProperties.UnhandledForbid | src/AspNetCore.Authentication.ApiKey/ApiKeyHandlerBase.cs:107-112 | an unhandled forbid answers 403 and changes nothing else |

## Left out

- Handler.ChallengeOutcome: an exception thrown by the OnHandleChallenge delegate is not modelled. The delegate is a total function from response to response.
- Handler.ForbidOutcome: an exception thrown by the OnHandleForbidden delegate is not modelled, for the same reason.
- Common.SameIgnoreCase: OrdinalIgnoreCase folds only ASCII letters here. .NET also folds letters outside ASCII.
- Extractors.FromHeader: header and query names are matched exactly. ASP.NET Core's header and query collections ignore case.
- Extractors.FromRouteValues: route value names are matched exactly. ASP.NET Core's RouteValueDictionary ignores their case.
- Handler.ChallengeOutcome: the response headers are a map with exact names, so a `www-authenticate` entry set by a delegate is a different entry from the `WWW-Authenticate` the handler writes. ASP.NET Core's header dictionary ignores case and would overwrite it.
- Extractors.ParsedAuthorization: AuthenticationHeaderValue.TryParse is an abstract parameter. The grammar of section 2.1 of RFC 7235 is not modelled.
- Handler.HandlerEvents: how the service provider resolves EventsType is not modelled. The resolved object is a field of the handler's environment.
- Claims.DefaultedClaims: a null element in the supplied claims is not modelled, because a `seq<Claim>` holds no null. In .NET, with a non-blank owner, such an element met before any NameIdentifier claim makes the type check throw NullReferenceException; the model has no such error path.
- Keys.ProviderType: ActivatorUtilities construction of the provider and its disposal after use are not modelled. Whether construction yields an IApiKeyProvider is a field.
- Handler.ChallengeOutcome: the base AuthenticationHandler's 401 and 403 writers are modelled as setting the status code only.
- Handler.Authenticate: Environment.NewLine is a parameter.
- Logging, async/await, cancellation and the #if framework variants are not modelled. The .NET 4.6.1/netstandard2.0 variant never ignores anonymous endpoints, and the model follows the other targets.
- SucceededContexts.ApplySucceededCall: `Success()` stores a snapshot of the principal in the result. In .NET the ticket shares the principal object, so an `AddClaim` or `AddClaims` made after `Success()` on the same principal also appears in the authenticated ticket. The model's ticket does not carry those claims.
- The identity of principal objects is not modelled, nor aliasing between a principal and its contexts. Principals are values, so a hook that keeps a reference to the principal and changes it later is not modelled.
- Hooks are modelled by the script of calls they make on their context. A hook that reads the context between its calls is a different script for each input; the script is a function of the key, principal or exception handed to the hook.
- ApiKeyValidator and the IApiKeyProviderFactory path are not used by the handler, so they are not modelled.
- The registration extension methods in ApiKeyExtensions.cs are not modelled. Their one effect, setting the provider type, is the `apiKeyProviderType` field of the options.
