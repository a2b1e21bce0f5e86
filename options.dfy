/** ApiKeyOptions, its defaults, and ApiKeyPostConfigureOptions, which checks
    after configuration that the options the handler needs are set. */
module Options {
  import opened Common
  import opened Keys
  import opened Events

  datatype ApiKeyOptions = ApiKeyOptions(
    keyName: NString,
    realm: NString,
    suppressWWWAuthenticateHeader: bool,
    /** Events; the setter accepts null. */
    events: Option<ApiKeyEvents>,
    /** AuthenticationSchemeOptions.EventsType, by the type's name. */
    eventsType: NString,
    forLegacyIgnoreExtraValidatedApiKeyCheck: bool,
    forLegacyUseKeyNameAsSchemeNameOnWWWAuthenticateHeader: bool,
    ignoreAuthenticationIfAllowAnonymous: bool,
    apiKeyProviderType: Option<ProviderType>,
    /** AuthenticationSchemeOptions.ClaimsIssuer. */
    claimsIssuer: NString)

  /** `new ApiKeyOptions()`: the constructor sets Events to a fresh
      ApiKeyEvents; everything else keeps its default. */
  function NewOptions(): (o: ApiKeyOptions)
    ensures o.events == Some(NewEvents())
    ensures !o.suppressWWWAuthenticateHeader && !o.forLegacyIgnoreExtraValidatedApiKeyCheck
    ensures !o.forLegacyUseKeyNameAsSchemeNameOnWWWAuthenticateHeader && !o.ignoreAuthenticationIfAllowAnonymous
    ensures o.apiKeyProviderType.None? && o.keyName.None? && o.realm.None?
  {
    ApiKeyOptions(None, None, false, Some(NewEvents()), None, false, false, false, None, None)
  }

  /** The Events getter and setter share one backing field. */
  function WithEvents(o: ApiKeyOptions, events: Option<ApiKeyEvents>): (r: ApiKeyOptions)
    ensures r.events == events
    ensures r.(events := o.events) == o
  {
    o.(events := events)
  }

  const RealmMessage := "Realm must be set in ApiKeyOptions when setting up the authentication."
  const KeyNameMessage := "KeyName must be set in ApiKeyOptions when setting up the authentication."
  const ResolverMessage := "Either OnValidateKey delegate on configure options Events should be set or use an extention method with type parameter of type IApiKeyProvider."

  /** The first guard: a realm is needed unless the header is suppressed. */
  predicate RealmMissing(o: ApiKeyOptions): (r: bool)
    ensures o.suppressWWWAuthenticateHeader ==> !r
    ensures !o.suppressWWWAuthenticateHeader && o.realm.None? ==> r
  {
    !o.suppressWWWAuthenticateHeader && IsNullOrWhiteSpace(o.realm)
  }

  predicate KeyNameMissing(o: ApiKeyOptions): (r: bool)
    ensures o.keyName.None? ==> r
    ensures o.keyName == Some("") ==> r
  {
    IsNullOrWhiteSpace(o.keyName)
  }

  /** No way to validate a key: no OnValidateKey (or no Events at all), no
      EventsType and no provider type. */
  predicate ResolverMissing(o: ApiKeyOptions): (r: bool)
    ensures o.apiKeyProviderType.Some? || o.eventsType.Some? ==> !r
    ensures o.events.Some? && o.events.value.onValidateKey.Some? ==> !r
    ensures o.events == Some(NewEvents()) && o.eventsType.None? && o.apiKeyProviderType.None? ==> r
  {
    (o.events.None? || o.events.value.onValidateKey.None?) && o.eventsType.None? && o.apiKeyProviderType.None?
  }

  /** PostConfigure: the exception it throws, if any. It never changes the
      options, so the model returns only the exception. */
  function PostConfigure(o: ApiKeyOptions): (r: Option<Exception>)
    ensures r.None? <==> !RealmMissing(o) && !KeyNameMissing(o) && !ResolverMissing(o)
    ensures r.Some? ==> r.value.kind == InvalidOperation
  {
    if RealmMissing(o) then Some(Exception(InvalidOperation, RealmMessage))
    else if KeyNameMissing(o) then Some(Exception(InvalidOperation, KeyNameMessage))
    else if ResolverMissing(o) then Some(Exception(InvalidOperation, ResolverMessage))
    else None
  }

  /** Only the first violated guard is reported, in the order realm, key
      name, resolver. */
  lemma PostConfigureReportsFirstViolation(o: ApiKeyOptions)
    ensures RealmMissing(o) ==> PostConfigure(o) == Some(Exception(InvalidOperation, RealmMessage))
    ensures !RealmMissing(o) && KeyNameMissing(o) ==>
      PostConfigure(o) == Some(Exception(InvalidOperation, KeyNameMessage))
    ensures !RealmMissing(o) && !KeyNameMissing(o) && ResolverMissing(o) ==>
      PostConfigure(o) == Some(Exception(InvalidOperation, ResolverMessage))
  {
  }

  /** With the header suppressed the realm may be blank. */
  lemma SuppressedHeaderNeedsNoRealm(o: ApiKeyOptions)
    requires o.suppressWWWAuthenticateHeader
    ensures PostConfigure(o) != Some(Exception(InvalidOperation, RealmMessage))
  {
  }

  /** Any one of OnValidateKey, EventsType or a provider type satisfies the
      third guard. */
  lemma AnyResolverSuffices(o: ApiKeyOptions)
    requires !RealmMissing(o) && !KeyNameMissing(o)
    requires (o.events.Some? && o.events.value.onValidateKey.Some?) || o.eventsType.Some? || o.apiKeyProviderType.Some?
    ensures PostConfigure(o).None?
  {
  }

  /** Default options are rejected, for the missing realm first. */
  lemma NewOptionsNeedRealm()
    ensures PostConfigure(NewOptions()) == Some(Exception(InvalidOperation, RealmMessage))
  {
  }

  /** Options that pass PostConfigure have a usable key name. */
  lemma ConfiguredOptionsHaveKeyName(o: ApiKeyOptions)
    requires PostConfigure(o).None?
    ensures o.keyName.Some? && !IsNullOrWhiteSpace(o.keyName)
  {
  }
}
