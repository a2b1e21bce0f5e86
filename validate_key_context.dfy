/** ApiKeyValidateKeyContext: the context the OnValidateKey hook receives.
    It carries the parsed key and offers ValidationSucceeded and
    ValidationFailed on top of the ResultContext members. */
module ValidateKeyContexts {
  import opened Common
  import opened Claims
  import opened ResultContexts

  /** What an OnValidateKey hook can do with its context. The one-argument
      ValidationSucceeded(claims) is ValidationSucceeded(null, claims). */
  datatype ValidateKeyCall =
    | ValidateBase(call: ResultCall)
    | ValidationSucceeded(ownerName: NString, claims: Option<seq<Claim>>)
    | ValidationFailed(failureMessage: NString)
    | ValidationFailedWith(failureException: Exception)

  /** ValidationSucceeded(ownerName, claims): the principal is built from the
      owner, the scheme name and Options.ClaimsIssuer, then Success() is
      called. Building throws for a blank scheme name. */
  function ValidationSucceededOn(schemeName: string, claimsIssuer: NString,
                                 ownerName: NString, claims: Option<seq<Claim>>): (r: Outcome<ResultState>)
    ensures r.Throw? <==> IsNullOrWhiteSpace(Some(schemeName))
    ensures r.Ok? ==>
      r.value.principal.Some? && r.value.result == Some(Success(r.value.principal.value)) &&
      IsAuthenticated(r.value.principal) &&
      AllClaims(r.value.principal.value.identities) == DefaultedClaims(ownerName, claimsIssuer, Supplied(claims))
  {
    match ClaimsPrincipalOf(ownerName, Some(schemeName), claimsIssuer, claims)
    case Throw(e) => Throw(e)
    case Ok(p) =>
      BuiltPrincipalIsAuthenticated(ownerName, Some(schemeName), claimsIssuer, claims);
      Ok(ResultState(Some(p), Some(Success(p))))
  }

  /** ValidationFailed(message): NoResult() for a null or blank message,
      otherwise Fail(message); the principal is untouched. */
  function ValidationFailedOn(st: ResultState, failureMessage: NString): (r: ResultState)
    ensures r.principal == st.principal
    ensures IsNullOrWhiteSpace(failureMessage) ==> r.result == Some(NoResult)
    ensures !IsNullOrWhiteSpace(failureMessage) ==>
      r.result.Some? && r.result.value.Fail? && r.result.value.failure.message == failureMessage.value
  {
    if IsNullOrWhiteSpace(failureMessage) then st.(result := Some(NoResult))
    else st.(result := Some(FailMessage(failureMessage.value)))
  }

  /** One call on the context: the context's own members always set a
      result, and only ValidationSucceeded replaces the principal. */
  function ApplyValidateKeyCall(schemeName: string, claimsIssuer: NString,
                                st: ResultState, c: ValidateKeyCall): (r: Outcome<ResultState>)
    ensures c.ValidationFailed? || c.ValidationFailedWith? ==> r.Ok? && r.value.principal == st.principal
    ensures c.ValidationSucceeded? ==> (r.Throw? <==> IsNullOrWhiteSpace(Some(schemeName)))
    ensures r.Ok? && !c.ValidateBase? ==> r.value.result.Some?
    ensures r.Ok? && st.result.Some? ==> r.value.result.Some?
    ensures c.ValidationFailedWith? ==> r.value.result == Some(Fail(c.failureException))
  {
    match c
    case ValidateBase(rc) => ApplyResultCall(st, rc)
    case ValidationSucceeded(o, cs) => ValidationSucceededOn(schemeName, claimsIssuer, o, cs)
    case ValidationFailed(m) => Ok(ValidationFailedOn(st, m))
    case ValidationFailedWith(e) => Ok(st.(result := Some(Fail(e))))
  }

  /** An OnValidateKey hook's calls, in order, stopping at the first exception. */
  function RunValidateKeyCalls(schemeName: string, claimsIssuer: NString,
                               st: ResultState, calls: seq<ValidateKeyCall>): (r: Outcome<ResultState>)
    ensures r.Ok? && st.result.Some? ==> r.value.result.Some?
    decreases |calls|
  {
    if calls == [] then Ok(st)
    else
      match ApplyValidateKeyCall(schemeName, claimsIssuer, st, calls[0])
      case Throw(e) => Throw(e)
      case Ok(next) => RunValidateKeyCalls(schemeName, claimsIssuer, next, calls[1..])
  }

  /** ValidationSucceeded(claims) adds no owner claims: the principal holds
      exactly the supplied claims. */
  lemma ValidationSucceededWithoutOwner(schemeName: string, claimsIssuer: NString, claims: Option<seq<Claim>>)
    requires !IsNullOrWhiteSpace(Some(schemeName))
    ensures var r := ValidationSucceededOn(schemeName, claimsIssuer, None, claims);
      r.Ok? && AllClaims(r.value.principal.value.identities) == Supplied(claims) &&
      |AllClaims(r.value.principal.value.identities)| == |Supplied(claims)|
  {
  }

  class ValidateKeyContext {
    /** The ApiKey property: the key given to the constructor. */
    const apiKey: string
    const schemeName: string
    const claimsIssuer: NString
    const core: ResultContext

    constructor (schemeName: string, claimsIssuer: NString, apiKey: string)
      ensures this.apiKey == apiKey && this.schemeName == schemeName && this.claimsIssuer == claimsIssuer
      ensures fresh(core) && core.State() == ResultState(None, None)
    {
      this.apiKey := apiKey;
      this.schemeName := schemeName;
      this.claimsIssuer := claimsIssuer;
      core := new ResultContext(None);
    }

    method ValidationSucceeded(ownerName: NString, claims: Option<seq<Claim>>) returns (error: Option<Exception>)
      modifies core
      ensures Settled(core.State(), error) == ValidationSucceededOn(schemeName, claimsIssuer, ownerName, claims)
    {
      var p := BuildClaimsPrincipal(ownerName, Some(schemeName), claimsIssuer, claims);
      if p.Throw? {
        return Some(p.exception);
      }
      core.SetPrincipal(Some(p.value));
      error := core.Success();
    }

    /** ValidationSucceeded(claims), the overload without an owner name. */
    method ValidationSucceededWithClaims(claims: Option<seq<Claim>>) returns (error: Option<Exception>)
      modifies core
      ensures Settled(core.State(), error) == ValidationSucceededOn(schemeName, claimsIssuer, None, claims)
    {
      error := ValidationSucceeded(None, claims);
    }

    method ValidationFailed(failureMessage: NString)
      modifies core
      ensures core.State() == ValidationFailedOn(old(core.State()), failureMessage)
    {
      if IsNullOrWhiteSpace(failureMessage) {
        core.NoResult();
        return;
      }
      core.Fail(failureMessage.value);
    }

    /** ValidationFailed(Exception): the same as Fail(exception). */
    method ValidationFailedWith(failureException: Exception)
      modifies core
      ensures core.State() == ResultState(old(core.principal), Some(Fail(failureException)))
    {
      core.FailWith(failureException);
    }

    method Apply(c: ValidateKeyCall) returns (error: Option<Exception>)
      modifies core
      ensures Settled(core.State(), error) == ApplyValidateKeyCall(schemeName, claimsIssuer, old(core.State()), c)
    {
      error := None;
      match c
      case ValidateBase(rc) => error := core.Apply(rc);
      case ValidationSucceeded(o, cs) => error := ValidationSucceeded(o, cs);
      case ValidationFailed(m) => ValidationFailed(m);
      case ValidationFailedWith(e) => ValidationFailedWith(e);
    }

    /** Runs an OnValidateKey hook's calls on this context. */
    method Run(calls: seq<ValidateKeyCall>) returns (error: Option<Exception>)
      modifies core
      ensures Settled(core.State(), error) == RunValidateKeyCalls(schemeName, claimsIssuer, old(core.State()), calls)
    {
      error := None;
      var i := 0;
      while i < |calls|
        invariant 0 <= i <= |calls|
        invariant error.None?
        invariant RunValidateKeyCalls(schemeName, claimsIssuer, old(core.State()), calls)
               == RunValidateKeyCalls(schemeName, claimsIssuer, core.State(), calls[i..])
      {
        assert calls[i..][0] == calls[i] && calls[i..][1..] == calls[i + 1..];
        error := Apply(calls[i]);
        if error.Some? {
          return;
        }
        i := i + 1;
      }
      assert calls[i..] == [];
    }
  }
}
