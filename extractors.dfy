/** The five ParseApiKeyAsync overrides: where each handler looks for the
    key in the request. Each reads the request and nothing else, and none
    throws. The `in` parameter of the challenge names the strategy. */
module Extractors {
  import opened Common

  /** A route value: a string, null, or an object of some other type. */
  datatype RouteValue = StringValue(s: string) | NullValue | OtherValue(typeName: string)

  /** The parts of the request the extractors read. Header and query
      entries hold every value sent under that name. */
  datatype Request = Request(
    headers: map<string, seq<string>>,
    query: map<string, seq<string>>,
    routeValues: map<string, RouteValue>,
    /** Whether the endpoint carries IAllowAnonymous metadata. */
    endpointAllowsAnonymous: bool)

  /** AuthenticationHeaderValue: `credentials = auth-scheme [ 1*SP ( token68
      / #auth-param ) ]` (section 2.1 of RFC 7235); the parameter is null
      when only a scheme was sent. */
  datatype AuthorizationValue = AuthorizationValue(scheme: string, parameter: NString)

  /** AuthenticationHeaderValue.TryParse over the Authorization header's
      values; a framework parser, so a parameter of the model. */
  type AuthorizationParser = seq<string> -> Option<AuthorizationValue>

  const AuthorizationHeaderName := "Authorization"

  /** StringValues.FirstOrDefault(): null when there is no value. */
  function FirstOrDefault(values: seq<string>): NString {
    if |values| == 0 then None else Some(values[0])
  }

  /** ApiKeyInHeaderHandler: the first value of the header named KeyName,
      or "" when that header is absent. */
  function FromHeader(req: Request, keyName: string): (r: NString)
    ensures keyName !in req.headers ==> r == Some("")
    ensures keyName in req.headers && |req.headers[keyName]| > 0 ==> r == Some(req.headers[keyName][0])
  {
    if keyName in req.headers then FirstOrDefault(req.headers[keyName]) else Some("")
  }

  /** ApiKeyInQueryParamsHandler: the first value of the query parameter
      named KeyName, or "" when it is absent. */
  function FromQuery(req: Request, keyName: string): (r: NString)
    ensures keyName !in req.query ==> r == Some("")
    ensures keyName in req.query && |req.query[keyName]| > 0 ==> r == Some(req.query[keyName][0])
  {
    if keyName in req.query then FirstOrDefault(req.query[keyName]) else Some("")
  }

  /** The Authorization header, parsed, when it is present and parses. */
  function ParsedAuthorization(req: Request, parse: AuthorizationParser): Option<AuthorizationValue> {
    if AuthorizationHeaderName in req.headers then parse(req.headers[AuthorizationHeaderName]) else None
  }

  /** ApiKeyInHeaderOrQueryParamsHandler: the query parameter KeyName, else
      the header KeyName, else the parameter of an Authorization header whose
      scheme is KeyName (ignoring case; the parameter may be null), else "". */
  function FromHeaderOrQuery(req: Request, keyName: string, parse: AuthorizationParser): (r: NString)
    ensures keyName !in req.query && keyName !in req.headers ==>
      var auth := ParsedAuthorization(req, parse);
      r == if auth.Some? && SameIgnoreCase(auth.value.scheme, keyName) then auth.value.parameter else Some("")
  {
    if keyName in req.query then FirstOrDefault(req.query[keyName])
    else if keyName in req.headers then FirstOrDefault(req.headers[keyName])
    else
      var auth := ParsedAuthorization(req, parse);
      if auth.Some? && SameIgnoreCase(auth.value.scheme, keyName) then auth.value.parameter
      else Some("")
  }

  /** ApiKeyInAuthorizationHeaderHandler: the parameter of an Authorization
      header whose scheme is the scheme name or KeyName (ignoring case), ""
      in place of a null parameter, and "" for any other header. Never null. */
  function FromAuthorizationHeader(req: Request, schemeName: string, keyName: string,
                                   parse: AuthorizationParser): (r: NString)
    ensures r.Some?
    ensures ParsedAuthorization(req, parse).None? ==> r == Some("")
    ensures var auth := ParsedAuthorization(req, parse);
      auth.Some? && !SameIgnoreCase(auth.value.scheme, schemeName) && !SameIgnoreCase(auth.value.scheme, keyName) ==>
        r == Some("")
    ensures var auth := ParsedAuthorization(req, parse);
      auth.Some? && (SameIgnoreCase(auth.value.scheme, schemeName) || SameIgnoreCase(auth.value.scheme, keyName)) ==>
        r == Some(Str(auth.value.parameter))
  {
    var auth := ParsedAuthorization(req, parse);
    if auth.Some? && (SameIgnoreCase(auth.value.scheme, schemeName) || SameIgnoreCase(auth.value.scheme, keyName)) then
      Some(if auth.value.parameter.Some? then auth.value.parameter.value else "")
    else Some("")
  }

  /** ApiKeyInRouteValuesHandler: the route value KeyName when it is a
      string, and "" when it is missing, null or of another type. Never null. */
  function FromRouteValues(req: Request, keyName: string): (r: NString)
    ensures r.Some?
    ensures keyName in req.routeValues && req.routeValues[keyName].StringValue? ==>
      r == Some(req.routeValues[keyName].s)
    ensures !(keyName in req.routeValues && req.routeValues[keyName].StringValue?) ==> r == Some("")
  {
    if keyName in req.routeValues && req.routeValues[keyName].StringValue? then Some(req.routeValues[keyName].s)
    else Some("")
  }

  /** The concrete handler types, one per place the key can be sent. */
  datatype Strategy = InHeader | InQueryParams | InHeaderOrQueryParams | InAuthorizationHeader | InRouteValues

  /** The handler's ParseApiKeyAsync override. */
  function ParseApiKey(strategy: Strategy, req: Request, schemeName: string, keyName: string,
                       parse: AuthorizationParser): (r: NString)
    ensures strategy == InAuthorizationHeader || strategy == InRouteValues ==> r.Some?
    ensures strategy == InHeader && keyName !in req.headers ==> r == Some("")
    ensures strategy == InQueryParams && keyName !in req.query ==> r == Some("")
  {
    match strategy
    case InHeader => FromHeader(req, keyName)
    case InQueryParams => FromQuery(req, keyName)
    case InHeaderOrQueryParams => FromHeaderOrQuery(req, keyName, parse)
    case InAuthorizationHeader => FromAuthorizationHeader(req, schemeName, keyName, parse)
    case InRouteValues => FromRouteValues(req, keyName)
  }

  /** GetWwwAuthenticateInParameter: the `in` value of the challenge. */
  function InParameter(strategy: Strategy): (r: string)
    ensures |r| > 0
    ensures forall i :: 0 <= i < |r| ==> r[i] != '"' && r[i] != '\\'
  {
    match strategy
    case InHeader => "header"
    case InQueryParams => "query_params"
    case InHeaderOrQueryParams => "header_or_query_params"
    case InAuthorizationHeader => "authorization_header"
    case InRouteValues => "route_values"
  }

  /** Different handlers announce different `in` values. */
  lemma InParameterIsInjective(s1: Strategy, s2: Strategy)
    ensures InParameter(s1) == InParameter(s2) <==> s1 == s2
  {
  }

  /** Two requests that agree on what an extractor reads give it the same
      key: the header extractor reads only the header KeyName, the query
      extractor only the query parameter KeyName, the route extractor only
      the route value KeyName, and the Authorization-header extractor only
      the Authorization header. */
  lemma ExtractorsReadOnlyTheirSource(r1: Request, r2: Request, schemeName: string, keyName: string,
                                      parse: AuthorizationParser)
    ensures (keyName in r1.headers <==> keyName in r2.headers) &&
            (keyName in r1.headers ==> r1.headers[keyName] == r2.headers[keyName]) ==>
      FromHeader(r1, keyName) == FromHeader(r2, keyName)
    ensures (keyName in r1.query <==> keyName in r2.query) &&
            (keyName in r1.query ==> r1.query[keyName] == r2.query[keyName]) ==>
      FromQuery(r1, keyName) == FromQuery(r2, keyName)
    ensures (keyName in r1.routeValues <==> keyName in r2.routeValues) &&
            (keyName in r1.routeValues ==> r1.routeValues[keyName] == r2.routeValues[keyName]) ==>
      FromRouteValues(r1, keyName) == FromRouteValues(r2, keyName)
    ensures ParsedAuthorization(r1, parse) == ParsedAuthorization(r2, parse) ==>
      FromAuthorizationHeader(r1, schemeName, keyName, parse) == FromAuthorizationHeader(r2, schemeName, keyName, parse)
  {
  }

  /** Header-or-query precedence: a query parameter KeyName decides the key
      whatever the headers say, and failing that a header KeyName decides
      it whatever the Authorization header says. */
  lemma HeaderOrQueryPrecedence(r1: Request, r2: Request, keyName: string, parse: AuthorizationParser)
    ensures keyName in r1.query && keyName in r2.query && r1.query[keyName] == r2.query[keyName] ==>
      FromHeaderOrQuery(r1, keyName, parse) == FromHeaderOrQuery(r2, keyName, parse) == FromQuery(r1, keyName)
    ensures keyName !in r1.query && keyName !in r2.query &&
            keyName in r1.headers && keyName in r2.headers && r1.headers[keyName] == r2.headers[keyName] ==>
      FromHeaderOrQuery(r1, keyName, parse) == FromHeaderOrQuery(r2, keyName, parse) == FromHeader(r1, keyName)
  {
  }

  /** A key sent in exactly one of the three places header-or-query looks
      is found there. */
  lemma HeaderOrQueryAcceptsEachLocation(key: string, keyName: string, parse: AuthorizationParser,
                                         authValues: seq<string>)
    requires keyName != AuthorizationHeaderName
    requires parse(authValues) == Some(AuthorizationValue(keyName, Some(key)))
    ensures FromHeaderOrQuery(Request(map[], map[keyName := [key]], map[], false), keyName, parse) == Some(key)
    ensures FromHeaderOrQuery(Request(map[keyName := [key]], map[], map[], false), keyName, parse) == Some(key)
    ensures FromHeaderOrQuery(Request(map[AuthorizationHeaderName := authValues], map[], map[], false), keyName, parse)
            == Some(key)
  {
    var viaAuth := Request(map[AuthorizationHeaderName := authValues], map[], map[], false);
    assert ParsedAuthorization(viaAuth, parse) == Some(AuthorizationValue(keyName, Some(key)));
  }

  /** The scheme rule differs: an Authorization header whose scheme is the
      registered scheme name but not KeyName is accepted by the
      Authorization-header handler and ignored by header-or-query. */
  lemma SchemeNameAcceptedOnlyByAuthorizationHeaderHandler(req: Request, schemeName: string, keyName: string,
                                                           parse: AuthorizationParser, key: string)
    requires keyName !in req.query && keyName !in req.headers
    requires ParsedAuthorization(req, parse) == Some(AuthorizationValue(schemeName, Some(key)))
    requires !SameIgnoreCase(schemeName, keyName)
    ensures FromAuthorizationHeader(req, schemeName, keyName, parse) == Some(key)
    ensures FromHeaderOrQuery(req, keyName, parse) == Some("")
  {
    SameIgnoreCaseIsEquivalence(schemeName, schemeName, keyName);
  }

  /** The Authorization-header handler ignores the case of the scheme:
      "apikey" matches a scheme registered as "ApiKey". */
  lemma AuthorizationSchemeIgnoresCase(req: Request, keyName: string, parse: AuthorizationParser)
    requires ParsedAuthorization(req, parse) == Some(AuthorizationValue("apikey", Some("k")))
    ensures FromAuthorizationHeader(req, "ApiKey", keyName, parse) == Some("k")
  {
    assert Fold("apikey") == Fold("ApiKey");
  }
}
