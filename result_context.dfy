/** The authentication result and the framework's ResultContext, the base
    of the validate-key, authentication-succeeded and authentication-failed
    contexts: a principal and a result that starts unset and is set by
    Success(), Fail(...) or NoResult(). */
module ResultContexts {
  import opened Common
  import opened Claims

  /** AuthenticateResult: a ticket for a principal, a failure, or no result. */
  datatype AuthResult = Success(principal: Principal) | Fail(failure: Exception) | NoResult

  /** `AuthenticateResult.Fail(string)`: the message is wrapped in an
      authentication-failure exception. */
  function FailMessage(message: string): (r: AuthResult)
    ensures r.Fail? && r.failure.kind == AuthenticationFailure && r.failure.message == message
  {
    Fail(Exception(AuthenticationFailure, message))
  }

  /** The observable state of a ResultContext. */
  datatype ResultState = ResultState(principal: Option<Principal>, result: Option<AuthResult>)

  /** What a hook can do with the members every ResultContext offers: assign
      Principal, call Success(), Fail(string), Fail(Exception) or NoResult(),
      or throw. */
  datatype ResultCall =
    | SetPrincipal(principal: Option<Principal>)
    | CallSuccess
    | CallFail(message: string)
    | CallFailWith(failure: Exception)
    | CallNoResult
    | Raise(exception: Exception)

  /** A state, or the exception that ended the run. */
  function Settled(st: ResultState, error: Option<Exception>): Outcome<ResultState> {
    if error.None? then Ok(st) else Throw(error.value)
  }

  /** One ResultContext member call. Success() builds an authentication
      ticket, which refuses a null principal. */
  function ApplyResultCall(st: ResultState, c: ResultCall): (r: Outcome<ResultState>)
    ensures r.Throw? <==> c.Raise? || (c.CallSuccess? && st.principal.None?)
    ensures c.CallSuccess? && st.principal.Some? ==>
      r == Ok(ResultState(st.principal, Some(Success(st.principal.value))))
    ensures r.Ok? && !c.SetPrincipal? ==> r.value.principal == st.principal && r.value.result.Some?
    ensures r.Ok? && c.SetPrincipal? ==> r.value == ResultState(c.principal, st.result)
  {
    match c
    case SetPrincipal(p) => Ok(st.(principal := p))
    case CallSuccess =>
      if st.principal.None? then Throw(ArgumentNullException("principal"))
      else Ok(st.(result := Some(Success(st.principal.value))))
    case CallFail(m) => Ok(st.(result := Some(FailMessage(m))))
    case CallFailWith(e) => Ok(st.(result := Some(Fail(e))))
    case CallNoResult => Ok(st.(result := Some(NoResult)))
    case Raise(e) => Throw(e)
  }

  /** A hook's calls, one after another, stopping at the first exception. */
  function RunResultCalls(st: ResultState, calls: seq<ResultCall>): (r: Outcome<ResultState>)
    ensures r.Ok? && st.result.Some? ==> r.value.result.Some?
    ensures r.Ok? ==> forall i :: 0 <= i < |calls| ==> !calls[i].Raise?
    decreases |calls|
  {
    if calls == [] then Ok(st)
    else
      match ApplyResultCall(st, calls[0])
      case Throw(e) => Throw(e)
      case Ok(next) => RunResultCalls(next, calls[1..])
  }

  /** Unfolds one step of RunResultCalls. */
  lemma RunResultCallsStep(st: ResultState, calls: seq<ResultCall>)
    requires calls != []
    ensures RunResultCalls(st, calls) ==
      match ApplyResultCall(st, calls[0])
      case Throw(e) => Throw(e)
      case Ok(next) => RunResultCalls(next, calls[1..])
  {
  }

  /** ResultContext: the mutable base of the three result-carrying contexts. */
  class ResultContext {
    var principal: Option<Principal>
    var result: Option<AuthResult>

    constructor (principal: Option<Principal>)
      ensures State() == ResultState(principal, None)
    {
      this.principal := principal;
      result := None;
    }

    function State(): ResultState
      reads this
    {
      ResultState(principal, result)
    }

    /** The Principal setter. */
    method SetPrincipal(p: Option<Principal>)
      modifies this
      ensures State() == ResultState(p, old(result))
    {
      principal := p;
    }

    /** Success(): the result becomes a ticket for the current principal. */
    method Success() returns (error: Option<Exception>)
      modifies this
      ensures Settled(State(), error) == ApplyResultCall(old(State()), CallSuccess)
      ensures principal == old(principal)
    {
      if principal.None? {
        return Some(ArgumentNullException("principal"));
      }
      result := Some(AuthResult.Success(principal.value));
      return None;
    }

    /** Fail(string). */
    method Fail(message: string)
      modifies this
      ensures State() == ResultState(old(principal), Some(FailMessage(message)))
    {
      result := Some(FailMessage(message));
    }

    /** Fail(Exception). */
    method FailWith(failure: Exception)
      modifies this
      ensures State() == ResultState(old(principal), Some(AuthResult.Fail(failure)))
    {
      result := Some(AuthResult.Fail(failure));
    }

    /** NoResult(). */
    method NoResult()
      modifies this
      ensures State() == ResultState(old(principal), Some(AuthResult.NoResult))
    {
      result := Some(AuthResult.NoResult);
    }

    /** Performs one call a hook makes on the context. */
    method Apply(c: ResultCall) returns (error: Option<Exception>)
      modifies this
      ensures Settled(State(), error) == ApplyResultCall(old(State()), c)
    {
      error := None;
      match c
      case SetPrincipal(p) => SetPrincipal(p);
      case CallSuccess => error := Success();
      case CallFail(m) => Fail(m);
      case CallFailWith(e) => FailWith(e);
      case CallNoResult => NoResult();
      case Raise(e) => error := Some(e);
    }

    /** Runs a hook's calls on the context in order, stopping at the first
        exception. */
    method Run(calls: seq<ResultCall>) returns (error: Option<Exception>)
      modifies this
      ensures Settled(State(), error) == RunResultCalls(old(State()), calls)
    {
      error := None;
      var i := 0;
      while i < |calls|
        invariant 0 <= i <= |calls|
        invariant error.None?
        invariant RunResultCalls(old(State()), calls) == RunResultCalls(State(), calls[i..])
      {
        RunResultCallsStep(State(), calls[i..]);
        assert calls[i..][0] == calls[i] && calls[i..][1..] == calls[i + 1..];
        error := Apply(calls[i]);
        if error.Some? {
          return;
        }
        i := i + 1;
      }
      assert calls[i..] == [];
    }
  }
}
